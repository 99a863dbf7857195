/**
 * The four mutations of the CRM API: creating one customer, creating
 * customers in bulk, creating a product and creating an order. Each reads
 * and writes the entity store `Db` and returns the created record or the
 * validation error message the API reports.
 */
module CrmSchema {
  import opened CrmModels

  const EmailExists := "Email already exists."
  const CustomerCreated := "Customer created successfully."
  const NegativePrice := "Price must be non-negative."
  const NegativeStock := "Stock must be non-negative."
  const InvalidCustomerId := "Invalid customer ID"
  const InvalidProductIds := "Invalid product IDs"

  /**
   * What the mutations keep true of the store: the table constraints, totals
   * that match their products, and (enforced only by product creation) prices
   * that are never negative.
   */
  ghost predicate StoreInvariant(db: Db)
    reads db
  {
    db.Valid() && PricesNonNegative(db.products)
  }

  /** Since prices are never negative, neither is any stored order's total. */
  lemma OrderTotalsNonNegative(db: Db)
    requires StoreInvariant(db)
    ensures forall id :: id in db.orders ==> db.orders[id].total >= 0
  {
    forall id | id in db.orders ensures db.orders[id].total >= 0 {
      PriceSumNonNegative(db.orders[id].products, db.products);
    }
  }

  // ---------------------------------------------------------------------
  // createCustomer
  // ---------------------------------------------------------------------

  /** The payload of a successful createCustomer. */
  datatype CustomerCreation = CustomerCreation(customer: Customer, message: string)

  method CreateCustomer(db: Db, name: string, email: string, phone: Option<string>)
    returns (r: Result<CustomerCreation>)
    requires StoreInvariant(db)
    modifies db
    ensures StoreInvariant(db)
    ensures EmailInUse(old(db.customers), email) ==> r == Err(EmailExists) && unchanged(db)
    ensures !EmailInUse(old(db.customers), email) ==>
      var c := Customer(old(db.nextCustomerId), name, email, phone);
      && r == Ok(CustomerCreation(c, CustomerCreated))
      && db.customers == old(db.customers)[c.id := c]
      && db.nextCustomerId == old(db.nextCustomerId) + 1
      && db.products == old(db.products) && db.orders == old(db.orders)
      && db.nextProductId == old(db.nextProductId) && db.nextOrderId == old(db.nextOrderId)
  {
    if EmailInUse(db.customers, email) {
      return Err(EmailExists);
    }
    var customer := db.InsertCustomer(name, email, phone);
    db.SaveCustomer(customer);
    r := Ok(CustomerCreation(customer, CustomerCreated));
  }

  // ---------------------------------------------------------------------
  // bulkCreateCustomers
  // ---------------------------------------------------------------------

  /** One item of a bulk request, shaped like the arguments of createCustomer. */
  datatype CustomerInput = CustomerInput(name: string, email: string, phone: Option<string>)

  /**
   * What becomes of one bulk item: the insert hits the email's unique
   * constraint, or the row is inserted and then fails field validation, or
   * the row is inserted and validated.
   */
  datatype ItemOutcome = Duplicate | Invalid(msg: string) | Stored

  function InputOf(c: Customer): CustomerInput {
    CustomerInput(c.name, c.email, c.phone)
  }

  function ToCustomer(id: nat, item: CustomerInput): Customer {
    Customer(id, item.name, item.email, item.phone)
  }

  function InputEmails(items: seq<CustomerInput>): set<string> {
    set item | item in items :: item.email
  }

  lemma InputEmailsSnoc(items: seq<CustomerInput>, k: nat)
    requires k < |items|
    ensures InputEmails(items[..k + 1]) == InputEmails(items[..k]) + {items[k].email}
  {
  }

  /**
   * The outcome of `item` when the emails `taken` are stored. `clean` stands
   * for the field validation of the inserted row: an error message, or None.
   */
  function Outcome(taken: set<string>, item: CustomerInput, clean: CustomerInput -> Option<string>): (r: ItemOutcome)
    ensures r.Duplicate? <==> item.email in taken
    ensures r.Invalid? ==> clean(item) == Some(r.msg)
    ensures r.Stored? <==> item.email !in taken && clean(item) == None
  {
    if item.email in taken then Duplicate
    else
      match clean(item)
      case Some(m) => Invalid(m)
      case None => Stored
  }

  /**
   * The outcome of item `k` of a batch: every earlier item, whatever its
   * outcome, has left its email in the table.
   */
  function OutcomeAt(taken: set<string>, items: seq<CustomerInput>, k: nat, clean: CustomerInput -> Option<string>): ItemOutcome
    requires k < |items|
  {
    Outcome(taken + InputEmails(items[..k]), items[k], clean)
  }

  /** The error string reported for an item that did not succeed. */
  function ErrorLine(item: CustomerInput, o: ItemOutcome): (r: string)
    requires !o.Stored?
    ensures item.name + ": " <= r
    ensures r[|item.name| + 2..] == if o.Duplicate? then UniqueEmailViolation else o.msg
  {
    item.name + ": " + (if o.Duplicate? then UniqueEmailViolation else o.msg)
  }

  /** The items reported as created, in input order. */
  function Accepted(taken: set<string>, items: seq<CustomerInput>, clean: CustomerInput -> Option<string>): seq<CustomerInput>
  {
    if items == [] then []
    else
      var k := |items| - 1;
      Accepted(taken, items[..k], clean) + (if OutcomeAt(taken, items, k, clean).Stored? then [items[k]] else [])
  }

  /** The items whose row was inserted, in input order: all but the duplicates. */
  function Inserted(taken: set<string>, items: seq<CustomerInput>, clean: CustomerInput -> Option<string>): seq<CustomerInput>
  {
    if items == [] then []
    else
      var k := |items| - 1;
      Inserted(taken, items[..k], clean) + (if OutcomeAt(taken, items, k, clean).Duplicate? then [] else [items[k]])
  }

  /** The error strings reported, in input order. */
  function ErrorLines(taken: set<string>, items: seq<CustomerInput>, clean: CustomerInput -> Option<string>): seq<string>
  {
    if items == [] then []
    else
      var k := |items| - 1;
      var o := OutcomeAt(taken, items, k, clean);
      ErrorLines(taken, items[..k], clean) + (if o.Stored? then [] else [ErrorLine(items[k], o)])
  }

  /** Every item is accounted for: as a created customer or as one error string. */
  lemma {:induction false} BulkAccountsForEveryItem(taken: set<string>, items: seq<CustomerInput>, clean: CustomerInput -> Option<string>)
    ensures |Accepted(taken, items, clean)| + |ErrorLines(taken, items, clean)| == |items|
  {
    if items != [] {
      BulkAccountsForEveryItem(taken, items[..|items| - 1], clean);
    }
  }

  /**
   * An item fails on the unique constraint exactly when its email was stored
   * before the batch or belongs to an earlier item of the same batch.
   */
  lemma DuplicateIff(taken: set<string>, items: seq<CustomerInput>, k: nat, clean: CustomerInput -> Option<string>)
    requires k < |items|
    ensures OutcomeAt(taken, items, k, clean).Duplicate? <==>
      items[k].email in taken || exists j :: 0 <= j < k && items[j].email == items[k].email
  {
  }

  /** No two items share an email. */
  predicate EmailsDistinct(items: seq<CustomerInput>) {
    forall i, j :: 0 <= i < j < |items| ==> items[i].email != items[j].email
  }

  /**
   * The created customers have emails that were free before the batch and
   * pairwise different, and each of them is an item of the batch.
   */
  lemma {:induction false} AcceptedEmailsFresh(taken: set<string>, items: seq<CustomerInput>, clean: CustomerInput -> Option<string>)
    ensures forall x :: x in Accepted(taken, items, clean) ==> x in items && x.email !in taken
    ensures EmailsDistinct(Accepted(taken, items, clean))
  {
    if items != [] {
      var k := |items| - 1;
      var prev := Accepted(taken, items[..k], clean);
      var acc := Accepted(taken, items, clean);
      AcceptedEmailsFresh(taken, items[..k], clean);
      assert items == items[..k] + [items[k]];
      forall x | x in prev ensures x in items {
        assert x in items[..k];
      }
      if OutcomeAt(taken, items, k, clean).Stored? {
        assert acc == prev + [items[k]];
        assert items[k].email !in taken + InputEmails(items[..k]);
        forall x | x in prev ensures x.email != items[k].email {
          assert x in items[..k];
          assert x.email in InputEmails(items[..k]);
        }
        assert EmailsDistinct(prev);
        forall i, j | 0 <= i < j < |acc| ensures acc[i].email != acc[j].email {
          if j < |prev| {
            assert acc[i] == prev[i] && acc[j] == prev[j];
            assert prev[i].email != prev[j].email;
          } else {
            assert acc[i] == prev[i] && acc[j] == items[k];
          }
        }
        forall x | x in acc ensures x in items && x.email !in taken {
          if x != items[k] {
            assert x in prev;
          }
        }
      } else {
        assert acc == prev;
      }
    }
  }

  /** Extending a batch by one item extends each of its three reports by that item's share. */
  lemma PrefixStep(taken: set<string>, items: seq<CustomerInput>, i: nat, clean: CustomerInput -> Option<string>)
    requires i < |items|
    ensures var o := OutcomeAt(taken, items, i, clean);
      && Accepted(taken, items[..i + 1], clean) == Accepted(taken, items[..i], clean) + (if o.Stored? then [items[i]] else [])
      && Inserted(taken, items[..i + 1], clean) == Inserted(taken, items[..i], clean) + (if o.Duplicate? then [] else [items[i]])
      && ErrorLines(taken, items[..i + 1], clean) == ErrorLines(taken, items[..i], clean) + (if o.Stored? then [] else [ErrorLine(items[i], o)])
  {
    assert items[..i + 1][..i] == items[..i];
    assert OutcomeAt(taken, items[..i + 1], i, clean) == OutcomeAt(taken, items, i, clean);
  }

  /**
   * The customer table after part of a batch: the rows of `before` are kept,
   * and the rows `added` follow under consecutive ids from `first` to `next`.
   */
  ghost predicate Extends(before: map<nat, Customer>, first: nat, added: seq<CustomerInput>, table: map<nat, Customer>, next: nat) {
    && next == first + |added|
    && (forall id :: id in table <==> id in before || first <= id < next)
    && (forall id :: id in before ==> table[id] == before[id])
    && (forall j :: 0 <= j < |added| ==> table[first + j] == ToCustomer(first + j, added[j]))
  }

  lemma ExtendsInsert(before: map<nat, Customer>, first: nat, added: seq<CustomerInput>, table: map<nat, Customer>, next: nat, item: CustomerInput)
    requires forall id :: id in before ==> id < first
    requires Extends(before, first, added, table, next)
    ensures Extends(before, first, added + [item], table[next := ToCustomer(next, item)], next + 1)
  {
  }

  /** `created` lists stored rows whose fields are those of `accepted`, in order. */
  ghost predicate Reports(created: seq<Customer>, accepted: seq<CustomerInput>, table: map<nat, Customer>) {
    && |created| == |accepted|
    && forall k :: 0 <= k < |created| ==>
         InputOf(created[k]) == accepted[k] && created[k].id in table && table[created[k].id] == created[k]
  }

  lemma ReportsInsert(created: seq<Customer>, accepted: seq<CustomerInput>, table: map<nat, Customer>, c: Customer)
    requires Reports(created, accepted, table) && c.id !in table
    ensures Reports(created, accepted, table[c.id := c])
  {
  }

  /**
   * The state after the first `i` items of a batch: the emails of the table,
   * its rows, the customers reported created and the errors reported are
   * those the first `i` outcomes prescribe.
   */
  ghost predicate BulkProgress(
    taken: set<string>, before: map<nat, Customer>, first: nat, input: seq<CustomerInput>, i: nat,
    clean: CustomerInput -> Option<string>,
    table: map<nat, Customer>, next: nat, created: seq<Customer>, errors: seq<string>)
  {
    && i <= |input|
    && (forall id :: id in before ==> id < first)
    && Emails(table) == taken + InputEmails(input[..i])
    && Extends(before, first, Inserted(taken, input[..i], clean), table, next)
    && Reports(created, Accepted(taken, input[..i], clean), table)
    && errors == ErrorLines(taken, input[..i], clean)
  }

  /** The customer table, its next id, and what a batch has reported so far. */
  datatype BatchState = BatchState(table: map<nat, Customer>, next: nat, created: seq<Customer>, errors: seq<string>)

  /**
   * What one item of a batch does to the state: the row is inserted unless
   * the email is taken, and the item is reported once, as created or as an
   * error, after the earlier reports.
   */
  ghost function ItemStep(s: BatchState, item: CustomerInput, clean: CustomerInput -> Option<string>): (r: BatchState)
    ensures |r.created| + |r.errors| == |s.created| + |s.errors| + 1
    ensures s.created <= r.created && s.errors <= r.errors
    ensures s.table.Keys <= r.table.Keys
  {
    var o := Outcome(Emails(s.table), item, clean);
    var c := ToCustomer(s.next, item);
    BatchState(
      if o.Duplicate? then s.table else s.table[s.next := c],
      if o.Duplicate? then s.next else s.next + 1,
      if o.Stored? then s.created + [c] else s.created,
      if o.Stored? then s.errors else s.errors + [ErrorLine(item, o)])
  }

  /**
   * The items of a batch processed one after the other, from the front: each
   * item adds one report after those already made, and no row is removed.
   */
  ghost function RunBatch(s: BatchState, items: seq<CustomerInput>, clean: CustomerInput -> Option<string>): (r: BatchState)
    ensures |r.created| + |r.errors| == |s.created| + |s.errors| + |items|
    ensures s.created <= r.created && s.errors <= r.errors
    ensures s.table.Keys <= r.table.Keys
    decreases |items|
  {
    if items == [] then s else RunBatch(ItemStep(s, items[0], clean), items[1..], clean)
  }

  /** The stored emails after one more item: every item leaves its email in the table. */
  lemma StepEmails(taken: set<string>, input: seq<CustomerInput>, i: nat, clean: CustomerInput -> Option<string>, s: BatchState)
    requires i < |input| && s.next !in s.table
    requires Emails(s.table) == taken + InputEmails(input[..i])
    ensures Emails(ItemStep(s, input[i], clean).table) == taken + InputEmails(input[..i + 1])
  {
    InputEmailsSnoc(input, i);
    if input[i].email !in Emails(s.table) {
      EmailsInsert(s.table, ToCustomer(s.next, input[i]));
    }
  }

  /** The rows after one more item: a non-duplicate adds its row under the next id. */
  lemma StepExtends(
    taken: set<string>, before: map<nat, Customer>, first: nat, input: seq<CustomerInput>, i: nat,
    clean: CustomerInput -> Option<string>, s: BatchState)
    requires i < |input| && (forall id :: id in before ==> id < first)
    requires Emails(s.table) == taken + InputEmails(input[..i])
    requires Extends(before, first, Inserted(taken, input[..i], clean), s.table, s.next)
    ensures var r := ItemStep(s, input[i], clean);
      Extends(before, first, Inserted(taken, input[..i + 1], clean), r.table, r.next)
  {
    PrefixStep(taken, input, i, clean);
    var r := ItemStep(s, input[i], clean);
    var added := Inserted(taken, input[..i], clean);
    if input[i].email in Emails(s.table) {
      assert r.table == s.table && r.next == s.next;
      assert Inserted(taken, input[..i + 1], clean) == added;
    } else {
      assert r.table == s.table[s.next := ToCustomer(s.next, input[i])] && r.next == s.next + 1;
      assert Inserted(taken, input[..i + 1], clean) == added + [input[i]];
      ExtendsInsert(before, first, added, s.table, s.next, input[i]);
    }
  }

  /** The created customers after one more item: a validated item is appended. */
  lemma StepReports(taken: set<string>, input: seq<CustomerInput>, i: nat, clean: CustomerInput -> Option<string>, s: BatchState)
    requires i < |input| && s.next !in s.table
    requires Emails(s.table) == taken + InputEmails(input[..i])
    requires Reports(s.created, Accepted(taken, input[..i], clean), s.table)
    ensures var r := ItemStep(s, input[i], clean);
      Reports(r.created, Accepted(taken, input[..i + 1], clean), r.table)
  {
    PrefixStep(taken, input, i, clean);
    var c := ToCustomer(s.next, input[i]);
    var accepted := Accepted(taken, input[..i], clean);
    if input[i].email !in Emails(s.table) {
      ReportsInsert(s.created, accepted, s.table, c);
      if clean(input[i]) == None {
        var table := s.table[s.next := c];
        forall k | 0 <= k < |s.created| + 1
          ensures InputOf((s.created + [c])[k]) == (accepted + [input[i]])[k]
          ensures (s.created + [c])[k].id in table && table[(s.created + [c])[k].id] == (s.created + [c])[k]
        {
          if k < |s.created| {
            assert (s.created + [c])[k] == s.created[k] && (accepted + [input[i]])[k] == accepted[k];
          }
        }
      }
    }
  }

  /** The error strings after one more item: a failed item appends its line. */
  lemma StepErrors(taken: set<string>, input: seq<CustomerInput>, i: nat, clean: CustomerInput -> Option<string>, s: BatchState)
    requires i < |input|
    requires Emails(s.table) == taken + InputEmails(input[..i])
    requires s.errors == ErrorLines(taken, input[..i], clean)
    ensures ItemStep(s, input[i], clean).errors == ErrorLines(taken, input[..i + 1], clean)
  {
    PrefixStep(taken, input, i, clean);
  }

  /**
   * What a whole batch does, given the customer table `before` and its next
   * id `first` at the start: `created` are the reported customers, stored,
   * with the fields of the accepted items in input order; `errors` are the
   * error strings of the other items in input order; the table keeps every
   * old row and gains one row per inserted item under consecutive ids; and
   * every email of the batch is now stored.
   */
  ghost predicate BulkOutcome(
    before: map<nat, Customer>, first: nat, input: seq<CustomerInput>, clean: CustomerInput -> Option<string>,
    table: map<nat, Customer>, next: nat, created: seq<Customer>, errors: seq<string>)
  {
    var taken := Emails(before);
    && Reports(created, Accepted(taken, input, clean), table)
    && errors == ErrorLines(taken, input, clean)
    && Extends(before, first, Inserted(taken, input, clean), table, next)
    && Emails(table) == taken + InputEmails(input)
  }

  lemma BulkProgressComplete(
    before: map<nat, Customer>, first: nat, input: seq<CustomerInput>, clean: CustomerInput -> Option<string>,
    table: map<nat, Customer>, next: nat, created: seq<Customer>, errors: seq<string>)
    requires BulkProgress(Emails(before), before, first, input, |input|, clean, table, next, created, errors)
    ensures BulkOutcome(before, first, input, clean, table, next, created, errors)
  {
    assert input[..|input|] == input;
  }

  /** One item of a batch keeps the state the first items prescribe, whatever its outcome. */
  lemma BulkStep(
    taken: set<string>, before: map<nat, Customer>, first: nat, input: seq<CustomerInput>, i: nat,
    clean: CustomerInput -> Option<string>, s: BatchState)
    requires BulkProgress(taken, before, first, input, i, clean, s.table, s.next, s.created, s.errors)
    requires i < |input|
    ensures var r := ItemStep(s, input[i], clean);
      BulkProgress(taken, before, first, input, i + 1, clean, r.table, r.next, r.created, r.errors)
  {
    assert s.next !in s.table;
    StepEmails(taken, input, i, clean, s);
    StepExtends(taken, before, first, input, i, clean, s);
    StepReports(taken, input, i, clean, s);
    StepErrors(taken, input, i, clean, s);
  }

  lemma {:induction false} RunBatchProgress(
    taken: set<string>, before: map<nat, Customer>, first: nat, input: seq<CustomerInput>, i: nat,
    clean: CustomerInput -> Option<string>, s: BatchState)
    requires BulkProgress(taken, before, first, input, i, clean, s.table, s.next, s.created, s.errors)
    ensures var r := RunBatch(s, input[i..], clean);
      BulkProgress(taken, before, first, input, |input|, clean, r.table, r.next, r.created, r.errors)
    decreases |input| - i
  {
    if i < |input| {
      BulkStep(taken, before, first, input, i, clean, s);
      assert input[i..][1..] == input[i + 1..];
      RunBatchProgress(taken, before, first, input, i + 1, clean, ItemStep(s, input[i], clean));
    } else {
      assert input[i..] == [];
    }
  }

  /** Running a batch from an empty report has the outcome the batch semantics prescribes. */
  lemma BatchMeaning(before: map<nat, Customer>, first: nat, input: seq<CustomerInput>, clean: CustomerInput -> Option<string>)
    requires forall id :: id in before ==> id < first
    ensures var r := RunBatch(BatchState(before, first, [], []), input, clean);
      BulkOutcome(before, first, input, clean, r.table, r.next, r.created, r.errors)
  {
    var taken := Emails(before);
    assert input[..0] == [] && input[0..] == input;
    assert InputEmails([]) == {};
    RunBatchProgress(taken, before, first, input, 0, clean, BatchState(before, first, [], []));
    var r := RunBatch(BatchState(before, first, [], []), input, clean);
    BulkProgressComplete(before, first, input, clean, r.table, r.next, r.created, r.errors);
  }

  /**
   * Every item of a batch is reported once, as a created customer or as an
   * error string; the created customers are items of the batch, in input
   * order, with emails that were free before the batch and pairwise
   * different.
   */
  lemma BatchReportsEveryItem(before: map<nat, Customer>, first: nat, input: seq<CustomerInput>, clean: CustomerInput -> Option<string>)
    requires forall id :: id in before ==> id < first
    ensures var r := RunBatch(BatchState(before, first, [], []), input, clean);
      && |r.created| + |r.errors| == |input|
      && (forall k :: 0 <= k < |r.created| ==> InputOf(r.created[k]) in input && r.created[k].email !in Emails(before))
      && (forall i, j :: 0 <= i < j < |r.created| ==> r.created[i].email != r.created[j].email)
  {
    var taken := Emails(before);
    var r := RunBatch(BatchState(before, first, [], []), input, clean);
    var accepted := Accepted(taken, input, clean);
    BatchMeaning(before, first, input, clean);
    BulkAccountsForEveryItem(taken, input, clean);
    AcceptedEmailsFresh(taken, input, clean);
    forall k | 0 <= k < |r.created|
      ensures InputOf(r.created[k]) in input && r.created[k].email !in taken
    {
      assert InputOf(r.created[k]) == accepted[k];
    }
    forall i, j | 0 <= i < j < |r.created| ensures r.created[i].email != r.created[j].email {
      assert InputOf(r.created[i]) == accepted[i] && InputOf(r.created[j]) == accepted[j];
    }
  }

  /**
   * Two items with the same fresh email: the first is created, the second
   * fails on the unique constraint left by the first, and the batch goes on.
   */
  lemma RepeatedEmailInBatch(before: map<nat, Customer>, first: nat, a: CustomerInput, b: CustomerInput, clean: CustomerInput -> Option<string>)
    requires forall id :: id in before ==> id < first
    requires a.email == b.email && a.email !in Emails(before) && clean(a) == None
    ensures var r := RunBatch(BatchState(before, first, [], []), [a, b], clean);
      && r.created == [ToCustomer(first, a)]
      && r.errors == [b.name + ": " + UniqueEmailViolation]
      && r.table == before[first := ToCustomer(first, a)]
  {
    var s0 := BatchState(before, first, [], []);
    var s1 := ItemStep(s0, a, clean);
    assert s1 == BatchState(before[first := ToCustomer(first, a)], first + 1, [ToCustomer(first, a)], []);
    EmailsInsert(before, ToCustomer(first, a));
    assert [a, b][1..] == [b] && [b][1..] == [];
    assert RunBatch(s0, [a, b], clean) == RunBatch(s1, [b], clean);
    var s2 := ItemStep(s1, b, clean);
    assert Outcome(Emails(s1.table), b, clean) == Duplicate;
    assert s2 == BatchState(s1.table, s1.next, s1.created, [b.name + ": " + UniqueEmailViolation]);
    assert RunBatch(s1, [b], clean) == RunBatch(s2, [], clean);
  }

  /**
   * The `try` block for one item: create the row (refused on a stored email),
   * validate it with `clean`, and save it when it is valid. A row that fails
   * validation has already been inserted and stays.
   */
  method CreateBatchItem(db: Db, item: CustomerInput, clean: CustomerInput -> Option<string>)
    returns (o: ItemOutcome, c: Customer)
    requires StoreInvariant(db)
    modifies db
    ensures StoreInvariant(db)
    ensures o == Outcome(Emails(old(db.customers)), item, clean)
    ensures c == ToCustomer(old(db.nextCustomerId), item)
    ensures db.customers == if o.Duplicate? then old(db.customers) else old(db.customers)[old(db.nextCustomerId) := c]
    ensures db.nextCustomerId == if o.Duplicate? then old(db.nextCustomerId) else old(db.nextCustomerId) + 1
    ensures db.products == old(db.products) && db.orders == old(db.orders)
    ensures db.nextProductId == old(db.nextProductId) && db.nextOrderId == old(db.nextOrderId)
  {
    c := ToCustomer(db.nextCustomerId, item);
    if EmailInUse(db.customers, item.email) {
      return Duplicate, c;
    }
    var customer := db.InsertCustomer(item.name, item.email, item.phone);
    match clean(item)
    case Some(m) =>
      o := Invalid(m);
    case None =>
      db.SaveCustomer(customer);
      o := Stored;
  }

  method BulkCreateCustomers(db: Db, input: seq<CustomerInput>, clean: CustomerInput -> Option<string>)
    returns (customers: seq<Customer>, errors: seq<string>)
    requires StoreInvariant(db)
    modifies db
    ensures StoreInvariant(db)
    ensures BatchState(db.customers, db.nextCustomerId, customers, errors)
         == RunBatch(BatchState(old(db.customers), old(db.nextCustomerId), [], []), input, clean)
    ensures BulkOutcome(old(db.customers), old(db.nextCustomerId), input, clean, db.customers, db.nextCustomerId, customers, errors)
    ensures db.products == old(db.products) && db.orders == old(db.orders)
    ensures db.nextProductId == old(db.nextProductId) && db.nextOrderId == old(db.nextOrderId)
  {
    ghost var start := BatchState(db.customers, db.nextCustomerId, [], []);
    customers, errors := [], [];
    assert input[0..] == input;
    for i := 0 to |input|
      invariant StoreInvariant(db)
      invariant db.products == old(db.products) && db.orders == old(db.orders)
      invariant db.nextProductId == old(db.nextProductId) && db.nextOrderId == old(db.nextOrderId)
      invariant RunBatch(BatchState(db.customers, db.nextCustomerId, customers, errors), input[i..], clean)
             == RunBatch(start, input, clean)
    {
      ghost var s := BatchState(db.customers, db.nextCustomerId, customers, errors);
      var outcome, customer := CreateBatchItem(db, input[i], clean);
      if outcome.Stored? {
        customers := customers + [customer];
      } else {
        errors := errors + [ErrorLine(input[i], outcome)];
      }
      assert BatchState(db.customers, db.nextCustomerId, customers, errors) == ItemStep(s, input[i], clean);
      assert input[i..][1..] == input[i + 1..];
    }
    assert input[|input|..] == [];
    BatchMeaning(start.table, start.next, input, clean);
  }

  // ---------------------------------------------------------------------
  // createProduct
  // ---------------------------------------------------------------------

  method CreateProduct(db: Db, name: string, price: int, stock: Option<int>) returns (r: Result<Product>)
    requires StoreInvariant(db)
    modifies db
    ensures StoreInvariant(db)
    ensures price < 0 ==> r == Err(NegativePrice) && unchanged(db)
    ensures price >= 0 && stock.GetOr(0) < 0 ==> r == Err(NegativeStock) && unchanged(db)
    ensures price >= 0 && stock.GetOr(0) >= 0 ==>
      var p := Product(old(db.nextProductId), name, price, stock.GetOr(0));
      && r == Ok(p)
      && db.products == old(db.products)[p.id := p]
      && db.nextProductId == old(db.nextProductId) + 1
      && db.customers == old(db.customers) && db.orders == old(db.orders)
      && db.nextCustomerId == old(db.nextCustomerId) && db.nextOrderId == old(db.nextOrderId)
  {
    var s := stock.GetOr(0);
    if price < 0 {
      return Err(NegativePrice);
    }
    if s < 0 {
      return Err(NegativeStock);
    }
    var product := db.InsertProduct(name, price, s);
    r := Ok(product);
  }

  // ---------------------------------------------------------------------
  // createOrder
  // ---------------------------------------------------------------------

  /**
   * The stored products among `productIds`, each once: the filter on primary
   * keys drops unknown ids and collapses repeated ones.
   */
  function Resolve(productIds: seq<nat>, products: map<nat, Product>): (r: seq<nat>)
    ensures NoDuplicates(r)
    ensures forall id :: id in r <==> id in productIds && id in products
  {
    if productIds == [] then []
    else
      var rest := Resolve(productIds[1..], products);
      if productIds[0] in products && productIds[0] !in rest then [productIds[0]] + rest else rest
  }

  /** A second write under the same key replaces the first. */
  lemma UpdateOverwrite(m: map<nat, Order>, k: nat, a: Order, b: Order)
    ensures m[k := a][k := b] == m[k := b]
  {
  }

  method CreateOrder(db: Db, customerId: nat, productIds: seq<nat>) returns (r: Result<Order>)
    requires StoreInvariant(db)
    modifies db
    ensures StoreInvariant(db)
    ensures customerId !in old(db.customers) ==> r == Err(InvalidCustomerId) && unchanged(db)
    ensures customerId in old(db.customers) && (forall id :: id in productIds ==> id !in old(db.products)) ==>
      r == Err(InvalidProductIds) && unchanged(db)
    ensures customerId in old(db.customers) && (exists id :: id in productIds && id in old(db.products)) ==>
      && r.Ok?
      && r.value.id == old(db.nextOrderId)
      && r.value.customer == customerId
      && r.value.products == (set id | id in productIds && id in old(db.products))
      && r.value.products != {}
      && TotalMatches(r.value, db.products)
      && db.orders == old(db.orders)[r.value.id := r.value]
      && db.nextOrderId == old(db.nextOrderId) + 1
      && db.customers == old(db.customers) && db.products == old(db.products)
      && db.nextCustomerId == old(db.nextCustomerId) && db.nextProductId == old(db.nextProductId)
  {
    if customerId !in db.customers {
      return Err(InvalidCustomerId);
    }
    var resolved := Resolve(productIds, db.products);
    if resolved == [] {
      assert forall id :: id in productIds ==> id !in db.products;
      return Err(InvalidProductIds);
    }
    assert resolved[0] in productIds && resolved[0] in db.products;
    ghost var orders := db.orders;
    var order := db.SaveNewOrder(customerId);
    ghost var created := order;
    var chosen := set id | id in resolved;
    assert chosen == (set id | id in productIds && id in db.products) && resolved[0] in chosen;
    db.SetOrderProducts(order.id, chosen);
    ghost var associated := order.(products := chosen);
    // The total assigned before the second save agrees with the one that save recomputes.
    TotalPriceIsPriceSum(resolved, db.products);
    order := order.(total := TotalPrice(resolved, db.products));
    order := db.SaveOrder(order);
    UpdateOverwrite(orders[order.id := created], order.id, associated, order);
    UpdateOverwrite(orders, order.id, created, order);
    r := Ok(order);
  }
}
