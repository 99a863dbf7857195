/**
 * The data model of the CRM application: the Customer, Product and Order
 * records with their field constraints, the rule that an order's total is
 * the sum of its products' prices, and an in-memory entity store `Db` that
 * stands for the object-relational layer the mutations write through.
 */
module CrmModels {

  datatype Option<T> = None | Some(value: T) {
    /** The wrapped value, or `default` when there is none. */
    function GetOr(default: T): T {
      match this
      case Some(v) => v
      case None => default
    }
  }

  /** The outcome of a mutation: a created record, or a validation error message. */
  datatype Result<T> = Ok(value: T) | Err(msg: string)

  /** A customer row: name and email are required, the phone is nullable. */
  datatype Customer = Customer(id: nat, name: string, email: string, phone: Option<string>)

  /** A product row; prices are whole currency units (or cents), never floating point. */
  datatype Product = Product(id: nat, name: string, price: int, stock: int)

  /**
   * An order row: the one customer it belongs to, the set of products it is
   * associated with (the many-to-many table) and its derived total.
   */
  datatype Order = Order(id: nat, customer: nat, products: set<nat>, total: int)

  /** The database's message when an insert would repeat a stored email. */
  const UniqueEmailViolation := "UNIQUE constraint failed: crm_customer.email"

  /** Some stored customer already has `email`: the check runs exactly when the email is among the stored ones. */
  function EmailInUse(customers: map<nat, Customer>, email: string): (r: bool)
    ensures r <==> email in Emails(customers)
  {
    exists id :: id in customers && customers[id].email == email
  }

  /** The emails of all stored customers. */
  ghost function Emails(customers: map<nat, Customer>): set<string> {
    set id | id in customers :: customers[id].email
  }

  /** A row inserted under a new id adds its email to the stored ones. */
  lemma EmailsInsert(customers: map<nat, Customer>, c: Customer)
    requires c.id !in customers
    ensures Emails(customers[c.id := c]) == Emails(customers) + {c.email}
  {
    var after := customers[c.id := c];
    forall e | e in Emails(after) ensures e in Emails(customers) + {c.email} {
      var id :| id in after && after[id].email == e;
      if id != c.id {
        assert customers[id].email == e;
      }
    }
    forall e | e in Emails(customers) ensures e in Emails(after) {
      var id :| id in customers && customers[id].email == e;
      assert after[id].email == e;
    }
    assert after[c.id].email == c.email;
  }

  /** The unique constraint on the email column. */
  ghost predicate EmailsUnique(customers: map<nat, Customer>) {
    forall i, j :: i in customers && j in customers && customers[i].email == customers[j].email ==> i == j
  }

  /** Every price in the table is non-negative. */
  ghost predicate PricesNonNegative(products: map<nat, Product>) {
    forall id :: id in products ==> products[id].price >= 0
  }

  // ---------------------------------------------------------------------
  // Sum of the prices of a set of products
  // ---------------------------------------------------------------------

  /** An arbitrary, but fixed, element of a non-empty set. */
  ghost function Pick(ids: set<nat>): (p: nat)
    requires ids != {}
    ensures p in ids
  {
    var p :| p in ids; p
  }

  /** The sum of the prices of the products `ids` names; the specification of an order's total. */
  ghost function PriceSum(ids: set<nat>, products: map<nat, Product>): int
    requires ids <= products.Keys
  {
    if ids == {} then 0
    else
      var p := Pick(ids);
      products[p].price + PriceSum(ids - {p}, products)
  }

  /** The sum does not depend on the order in which the products are added up. */
  lemma {:induction false} PriceSumRemove(ids: set<nat>, products: map<nat, Product>, x: nat)
    requires ids <= products.Keys && x in ids
    ensures PriceSum(ids, products) == products[x].price + PriceSum(ids - {x}, products)
  {
    var p := Pick(ids);
    if p != x {
      PriceSumRemove(ids - {p}, products, x);
      assert ids - {p} - {x} == ids - {x} - {p};
      PriceSumRemove(ids - {x}, products, p);
    }
  }

  /** The sum reads only the prices of the products it names. */
  lemma {:induction false} PriceSumFrame(ids: set<nat>, a: map<nat, Product>, b: map<nat, Product>)
    requires ids <= a.Keys && ids <= b.Keys
    requires forall id :: id in ids ==> a[id].price == b[id].price
    ensures PriceSum(ids, a) == PriceSum(ids, b)
  {
    if ids != {} {
      PriceSumFrame(ids - {Pick(ids)}, a, b);
    }
  }

  /** With non-negative prices, a total is never negative. */
  lemma {:induction false} PriceSumNonNegative(ids: set<nat>, products: map<nat, Product>)
    requires ids <= products.Keys && PricesNonNegative(products)
    ensures PriceSum(ids, products) >= 0
  {
    if ids != {} {
      PriceSumNonNegative(ids - {Pick(ids)}, products);
    }
  }

  /** No id occurs twice. */
  predicate NoDuplicates(ids: seq<nat>) {
    forall i, j :: 0 <= i < j < |ids| ==> ids[i] != ids[j]
  }

  /** Adds up the prices of the listed products, one after another. */
  function TotalPrice(ids: seq<nat>, products: map<nat, Product>): (r: int)
    requires forall id :: id in ids ==> id in products
    ensures PricesNonNegative(products) ==> r >= 0
    ensures ids == [] ==> r == 0
  {
    if ids == [] then 0 else products[ids[0]].price + TotalPrice(ids[1..], products)
  }

  /** Adding up a duplicate-free list of products gives the sum over the set it enumerates. */
  lemma {:induction false} TotalPriceIsPriceSum(ids: seq<nat>, products: map<nat, Product>)
    requires NoDuplicates(ids) && forall id :: id in ids ==> id in products
    ensures (set id | id in ids) <= products.Keys
    ensures TotalPrice(ids, products) == PriceSum((set id | id in ids), products)
  {
    if ids == [] {
      assert (set id | id in ids) == {};
      assert PriceSum({}, products) == 0;
    } else {
      var all := set id | id in ids;
      var rest := set id | id in ids[1..];
      assert NoDuplicates(ids[1..]) by {
        forall i, j | 0 <= i < j < |ids[1..]| ensures ids[1..][i] != ids[1..][j] {
          assert ids[1..][i] == ids[i + 1] && ids[1..][j] == ids[j + 1];
        }
      }
      TotalPriceIsPriceSum(ids[1..], products);
      assert all - {ids[0]} == rest by {
        forall id | id in all - {ids[0]} ensures id in rest {
          var k :| 0 <= k < |ids| && ids[k] == id;
          assert ids[1..][k - 1] == id;
        }
        forall id | id in rest ensures id in all - {ids[0]} {
          var k :| 0 <= k < |ids[1..]| && ids[1..][k] == id;
          assert ids[k + 1] == id;
        }
      }
      PriceSumRemove(all, products, ids[0]);
      assert PriceSum(all, products) == products[ids[0]].price + PriceSum(rest, products);
      assert TotalPrice(ids, products) == products[ids[0]].price + TotalPrice(ids[1..], products);
      assert TotalPrice(ids[1..], products) == PriceSum(rest, products);
    }
  }

  /** The total of order `o` is the sum of its products' prices. */
  ghost predicate TotalMatches(o: Order, products: map<nat, Product>) {
    o.products <= products.Keys && o.total == PriceSum(o.products, products)
  }

  /** The customer table: rows keyed by their id, ids below the next one, emails unique. */
  ghost predicate CustomersOk(customers: map<nat, Customer>, next: nat) {
    && 0 < next
    && (forall id :: id in customers ==> customers[id].id == id && 0 < id < next)
    && EmailsUnique(customers)
  }

  /** The product table: rows keyed by their id, ids below the next one, stock non-negative. */
  ghost predicate ProductsOk(products: map<nat, Product>, next: nat) {
    && 0 < next
    && (forall id :: id in products ==> products[id].id == id && 0 < id < next && products[id].stock >= 0)
  }

  /** The order table: rows keyed by their id, ids below the next one, references to stored rows only. */
  ghost predicate OrdersOk(orders: map<nat, Order>, next: nat, customerIds: set<nat>, productIds: set<nat>) {
    && 0 < next
    && (forall id :: id in orders ==>
          && orders[id].id == id && 0 < id < next
          && orders[id].customer in customerIds
          && orders[id].products <= productIds)
  }

  /** Every stored order's total matches its products. */
  ghost predicate TotalsOk(orders: map<nat, Order>, products: map<nat, Product>) {
    forall id :: id in orders ==> TotalMatches(orders[id], products)
  }

  // ---------------------------------------------------------------------
  // The entity store
  // ---------------------------------------------------------------------

  /**
   * The three tables the application persists, keyed by id, with one
   * auto-increment counter per table (ids start at 1).
   */
  class Db {
    var customers: map<nat, Customer>
    var products: map<nat, Product>
    var orders: map<nat, Order>
    var nextCustomerId: nat
    var nextProductId: nat
    var nextOrderId: nat

    /** The column and key constraints of the three tables. */
    ghost predicate WellFormed()
      reads this
    {
      && CustomersOk(customers, nextCustomerId)
      && ProductsOk(products, nextProductId)
      && OrdersOk(orders, nextOrderId, customers.Keys, products.Keys)
    }

    ghost predicate Valid()
      reads this
    {
      WellFormed() && TotalsOk(orders, products)
    }

    constructor ()
      ensures Valid()
      ensures customers == map[] && products == map[] && orders == map[]
      ensures nextCustomerId == 1 && nextProductId == 1 && nextOrderId == 1
    {
      customers, products, orders := map[], map[], map[];
      nextCustomerId, nextProductId, nextOrderId := 1, 1, 1;
    }

    /** `Customer.objects.create`: inserts a row under the next id; the caller has ruled out a repeated email. */
    method InsertCustomer(name: string, email: string, phone: Option<string>) returns (c: Customer)
      requires Valid() && !EmailInUse(customers, email)
      modifies this
      ensures Valid()
      ensures c == Customer(old(nextCustomerId), name, email, phone)
      ensures customers == old(customers)[c.id := c] && nextCustomerId == old(nextCustomerId) + 1
      ensures products == old(products) && orders == old(orders)
      ensures nextProductId == old(nextProductId) && nextOrderId == old(nextOrderId)
    {
      c := Customer(nextCustomerId, name, email, phone);
      customers := customers[c.id := c];
      nextCustomerId := nextCustomerId + 1;
    }

    /** `customer.save()` on a stored customer: writes its fields back under its id. */
    method SaveCustomer(c: Customer)
      requires Valid() && c.id in customers
      requires forall id :: id in customers && id != c.id ==> customers[id].email != c.email
      modifies this
      ensures Valid()
      ensures customers == old(customers)[c.id := c]
      ensures products == old(products) && orders == old(orders)
      ensures nextCustomerId == old(nextCustomerId) && nextProductId == old(nextProductId)
      ensures nextOrderId == old(nextOrderId)
    {
      customers := customers[c.id := c];
    }

    /** `Product(...).save()`: inserts a row under the next id; the stock column is non-negative. */
    method InsertProduct(name: string, price: int, stock: int) returns (p: Product)
      requires Valid() && stock >= 0
      modifies this
      ensures Valid()
      ensures p == Product(old(nextProductId), name, price, stock)
      ensures products == old(products)[p.id := p] && nextProductId == old(nextProductId) + 1
      ensures customers == old(customers) && orders == old(orders)
      ensures nextCustomerId == old(nextCustomerId) && nextOrderId == old(nextOrderId)
    {
      p := Product(nextProductId, name, price, stock);
      forall id | id in orders ensures TotalMatches(orders[id], products[p.id := p])
      {
        PriceSumFrame(orders[id].products, products, products[p.id := p]);
      }
      products := products[p.id := p];
      nextProductId := nextProductId + 1;
    }

    /** The recomputation in `Order.save`: adds up the prices of the products `ids` names. */
    method ProductTotal(ids: set<nat>) returns (total: int)
      requires ids <= products.Keys
      ensures total == PriceSum(ids, products)
    {
      total := 0;
      var rest := ids;
      while rest != {}
        invariant rest <= ids
        invariant total + PriceSum(rest, products) == PriceSum(ids, products)
        decreases rest
      {
        var p :| p in rest;
        PriceSumRemove(rest, products, p);
        total := total + products[p].price;
        rest := rest - {p};
      }
    }

    /**
     * `Order(customer=...).save()` for a new order: it gets the next id, no
     * products yet, and a total recomputed over that empty set.
     */
    method SaveNewOrder(customer: nat) returns (o: Order)
      requires Valid() && customer in customers
      modifies this
      ensures Valid()
      ensures o == Order(old(nextOrderId), customer, {}, 0)
      ensures orders == old(orders)[o.id := o] && nextOrderId == old(nextOrderId) + 1
      ensures customers == old(customers) && products == old(products)
      ensures nextCustomerId == old(nextCustomerId) && nextProductId == old(nextProductId)
    {
      var total := ProductTotal({});
      o := Order(nextOrderId, customer, {}, total);
      orders := orders[o.id := o];
      nextOrderId := nextOrderId + 1;
    }

    /** `order.products.set(...)`: replaces the association rows of order `id`; the total is not touched. */
    method SetOrderProducts(id: nat, ids: set<nat>)
      requires Valid() && id in orders && ids <= products.Keys
      modifies this
      ensures WellFormed()
      ensures forall other :: other in orders && other != id ==> TotalMatches(orders[other], products)
      ensures orders == old(orders)[id := old(orders)[id].(products := ids)]
      ensures customers == old(customers) && products == old(products)
      ensures nextCustomerId == old(nextCustomerId) && nextProductId == old(nextProductId)
      ensures nextOrderId == old(nextOrderId)
    {
      orders := orders[id := orders[id].(products := ids)];
    }

    /**
     * `order.save()` for a stored order: whatever total the caller assigned,
     * the total is recomputed from the order's stored products, then the row
     * is written back.
     */
    method SaveOrder(o: Order) returns (saved: Order)
      requires WellFormed() && o.id in orders && o.customer in customers
      requires forall other :: other in orders && other != o.id ==> TotalMatches(orders[other], products)
      modifies this
      ensures Valid()
      ensures saved.id == o.id && saved.customer == o.customer && saved.products == old(orders[o.id].products)
      ensures TotalMatches(saved, products)
      ensures orders == old(orders)[o.id := saved]
      ensures customers == old(customers) && products == old(products)
      ensures nextCustomerId == old(nextCustomerId) && nextProductId == old(nextProductId)
      ensures nextOrderId == old(nextOrderId)
    {
      var associated := orders[o.id].products;
      var total := ProductTotal(associated);
      saved := o.(products := associated, total := total);
      orders := orders[o.id := saved];
    }
  }
}
