# CRM mutation core in Dafny

This project models the create-and-validate core of a small CRM graph API.
Three kinds of record are kept: customers, products and orders. Four
mutations create them:

- `createCustomer` refuses an email that is already stored, then creates the customer.
- `bulkCreateCustomers` loops over a list of customer inputs. For each it
  inserts the row (`objects.create`), validates it (`full_clean`) and saves
  it; there is no "Email already exists." pre-check. A repeated email fails
  on the database's unique constraint instead, and a row that fails
  validation has already been inserted. Each failure becomes an error
  string `"<name>: <message>"`, and the loop goes on with the next item.
- `createProduct` refuses a negative price, then a negative stock (the stock
  defaults to 0).
- `createOrder` resolves the customer, then the product ids. Ids that
  resolve to nothing are dropped, and the order fails if none resolve. The
  order's total is the sum of its products' prices.

Two modules, one per source file:

- `CrmModels` (`crm_models.dfy`) holds the three records and the table
  constraints of `crm/models.py`. It also holds the price sum that defines
  an order's total, and the class `Db`. `Db` stands for the object-relational
  layer: one map per table, one id counter per table, and one method per
  storage call the mutations make (`objects.create`, `save()`,
  `order.products.set`). `Db.SaveOrder` is `Order.save`, which recomputes
  the total from the order's stored products every time it runs.
- `CrmSchema` (`crm_schema.dfy`) holds the four `mutate` bodies of
  `crm/schema.py` as module-level methods that take the store `db` as a
  parameter and modify it. `CreateCustomer`, `CreateProduct` and
  `CreateOrder` return `Ok(record)` or `Err(message)`, with the source's
  message strings; `BulkCreateCustomers` returns the pair of the created
  customers and the error strings.

Every mutation keeps `StoreInvariant` true. That invariant says:

- emails are unique;
- stock is never negative, and neither is any price;
- every order refers to a stored customer and stored products;
- every order's total is the sum of its products' prices.

The bulk mutation is proved against `RunBatch`, a pure definition that
processes the items one by one, from the front. `BatchMeaning` proves what
`RunBatch` produces:

- the reports come in input order;
- one table row is inserted per non-duplicate item;
- the error strings are exact.

It states all this through the prefix definitions `Accepted`, `Inserted`
and `ErrorLines`.

Where the source files disagree with each other, or with a plain reading of
them, the model follows what the code does:

- An item of a bulk request that fails field validation has already been
  inserted by `objects.create` (crm/schema.py:53-54). It stays in the table
  and is reported as an error, not as created.
- `Order.save` recomputes the total on every save (crm/models.py:28-31).
  At the second save of `createOrder` the model does the same, so the total
  assigned in crm/schema.py:101 is overwritten by the same sum.
- An empty `product_ids` list is not rejected up front. It resolves to no
  products and fails with "Invalid product IDs".

Where the code cannot run as written, the model follows its evident intent:

- An order holds a *set* of products, as crm/schema.py:100 uses it.
  crm/models.py:23 instead declares a single foreign key, on which the
  `.all()` of crm/models.py:30 would not exist.
- The first save of a new order (crm/schema.py:99) stores it with no
  products and the default total 0 of crm/models.py:24. In the source that
  save never gets that far (see `CrmModels.Db.SaveNewOrder` under
  "## Left out").

## Model

| member | source | states |
|---|---|---|
| CrmModels.Db.constructor | crm/models.py:5-25 | the store starts with three empty tables and every id counter at 1; the table invariants hold |
| CrmModels.Db.InsertCustomer | crm/schema.py:36 | given an unused email, inserts exactly one customer under the next id with the given name, email and phone (phone may be absent); every other table and counter is unchanged; the table invariants, including unique emails, are preserved |
| CrmModels.Db.SaveCustomer | crm/schema.py:37 | writes a stored customer back under its own id, with only that row changed and the invariants preserved |
| CrmModels.Db.InsertProduct | crm/schema.py:75-76 | inserts exactly one product under the next id with the given name, price and stock, for a non-negative stock (crm/models.py:16); every stored order's total still matches its products |
| CrmModels.Db.ProductTotal | crm/models.py:30 | the loop that adds up the prices of a set of stored products returns exactly `PriceSum` of that set |
| CrmModels.Db.SaveNewOrder | crm/models.py:24-31 | the first save of an order gives it the next order id, no products and a recomputed total of 0; all invariants hold afterwards |
| CrmModels.Db.SetOrderProducts | crm/schema.py:100 | replaces the product set of one stored order and changes nothing else; the total of that order is left as it was, and every other order still matches |
| CrmModels.Db.SaveOrder | crm/models.py:28-31 | whatever total the caller assigned, the saved order's total is recomputed as the sum of the prices of its stored products; after the save every order's total matches |
| CrmModels.PriceSumRemove | crm/models.py:30 | the sum of prices does not depend on the order the products are added in: any member can be taken out first |
| CrmModels.PriceSumFrame | crm/models.py:30 | the sum depends only on the prices of the products it names |
| CrmModels.PriceSumNonNegative | crm/schema.py:70-71 | when no price is negative, no sum of prices is negative |
| CrmModels.TotalPriceIsPriceSum | crm/schema.py:101 | adding up a duplicate-free list of the resolved products, as `sum(p.price for p in products)` does, gives the same total as the set sum `Order.save` recomputes |
| CrmModels.EmailInUse | crm/schema.py:33 | the existence check on the email filter holds exactly when the email is among the stored emails |
| CrmModels.TotalPrice | crm/schema.py:101 | the generator sum over the resolved products: 0 for none, never negative when no price is; `TotalPriceIsPriceSum` equates it with the set sum |
| CrmModels.EmailsInsert | crm/models.py:7 | inserting a row under a new id adds exactly its email to the stored emails |
| CrmSchema.OrderTotalsNonNegative | crm/models.py:24 | under the store invariant, every stored order's total is non-negative |
| CrmSchema.CreateCustomer | crm/schema.py:32-38 | a stored email gives "Email already exists." with the store unchanged; otherwise exactly one customer with the given fields is added under the next id, the message is "Customer created successfully.", and nothing else changes |
| CrmSchema.Outcome | crm/schema.py:53-56 | what one item's `try` block comes to: a unique-constraint failure exactly when its email is taken; otherwise a validation failure carrying `full_clean`'s message, or success exactly when validation passes |
| CrmSchema.ErrorLine | crm/schema.py:58 | the error string of a failed item is the item's name, then ": ", then the failure's message (the unique-constraint text for a duplicate) |
| CrmSchema.ItemStep | crm/schema.py:52-58 | one pass of the loop body: exactly one report is added (created or error) after the earlier ones, which are kept, and no row is removed; `BulkStep` shows it keeps the batch state the first items prescribe |
| CrmSchema.RunBatch | crm/schema.py:51-58 | the loop over the items from the front: one report per item, appended after the earlier reports, no row removed; `BatchMeaning` gives its full outcome |
| CrmSchema.BulkAccountsForEveryItem | crm/schema.py:49-58 | every item is reported exactly once: the number of created customers plus the number of error strings is the number of items |
| CrmSchema.DuplicateIff | crm/schema.py:53 | an item fails on the unique email constraint exactly when its email was stored before the batch or belongs to an earlier item of the same batch |
| CrmSchema.AcceptedEmailsFresh | crm/schema.py:51-56 | the created customers are items of the batch, their emails were free before the batch, and no two of them share an email |
| CrmSchema.BatchMeaning | crm/schema.py:48-59 | running a batch yields the created customers in input order with their items' fields, stored under their ids; the error strings `"<name>: <message>"` in input order; one new row under consecutive ids per non-duplicate item; old rows kept; and every email of the batch stored |
| CrmSchema.BatchReportsEveryItem | crm/schema.py:49-58 | the batch's result accounts for every item (as many created customers plus error strings as items), and its created customers come from the input, with emails that were new and pairwise distinct |
| CrmSchema.RepeatedEmailInBatch | crm/schema.py:51-58 | of two items with the same new email, the first is created and the second is reported as a unique-constraint error, so the batch continues past the failure |
| CrmSchema.CreateBatchItem | crm/schema.py:52-58 | one `try` block: a stored email inserts nothing and fails as a duplicate; otherwise the row is inserted under the next id, then reported as created if validation passes, or left in the table and reported as invalid if it fails |
| CrmSchema.BulkCreateCustomers | crm/schema.py:48-59 | the loop computes exactly `RunBatch` over the input (so `BatchMeaning` applies), keeps the store invariant, and leaves products, orders and their counters unchanged |
| CrmSchema.CreateProduct | crm/schema.py:69-77 | a negative price gives "Price must be non-negative." whatever the stock, checked first; otherwise a negative stock gives "Stock must be non-negative."; neither failure stores anything; otherwise exactly one product with the given name, price and stock (omitted stock counts as 0) is stored |
| CrmSchema.Resolve | crm/schema.py:94 | the `pk__in` filter yields each stored product named in the id list exactly once: unknown ids are dropped and repeated ids collapse |
| CrmSchema.CreateOrder | crm/schema.py:86-103 | an unknown customer gives "Invalid customer ID", checked before the products; otherwise no resolvable product id gives "Invalid product IDs"; neither failure changes the store; otherwise exactly one order is stored under the next id, for that customer, with exactly the stored products named in the list and a total equal to the sum of their prices |

## Left out

- The `hello` query, the `CRMQuery` class and the schema root in alx_backend_graphql/schema.py hold no logic.
- The graphene type and argument declarations and the result serialisation are framework plumbing. This includes the mismatch between the `Product` field at crm/schema.py:62 and the `product=` keyword at crm/schema.py:77.
- The `@transaction.atomic` wrapper of the bulk mutation is not modelled. That covers rollback, and the rule that a caught database error spoils the rest of an atomic block. The model treats each item as committed on its own, which is what the collect-and-continue loop intends. The wrong import at crm/schema.py:5 is not modelled either.
- `full_clean` is the function parameter `clean` of the bulk methods. It maps an item to an error message or to none. The checks it makes are not modelled: email format and the `max_length` limits of crm/models.py:6-8.
- The message of a unique-constraint failure comes from the database, not the application. The model uses the constant `UniqueEmailViolation` in its place.
- The catch-all "Error creating order: ..." branch (crm/schema.py:91-92) is not modelled, because it depends on arbitrary ORM exceptions. So is parsing graph IDs into numbers: customer and product ids are given as natural numbers.
- `order_date` (crm/models.py:25) is not modelled, because it reads the clock. `on_delete=CASCADE` is not modelled, because no operation deletes a record.
- Prices are whole numbers (for example cents). Decimal rounding and the `max_digits` bound of crm/models.py:15,24 are not modelled.
- CrmSchema.CreateProduct: a stock passed explicitly as null is not distinguished from an omitted one. Both count as 0, whereas the source would fail comparing null with 0.
- CrmModels.Db.SaveNewOrder: models the intended first save of a new order (next id, no products, total 0). In the source the first `order.save()` (crm/schema.py:99) runs crm/models.py:30 before the order has a primary key: the foreign key `product` of crm/models.py:23 has no value, and under the set reading a many-to-many manager refuses an unsaved instance. Either way that save raises, and the model does not capture this failure.
- The `__str__` methods are display only.
- Concurrency between requests is not modelled. Each mutation runs alone on the store.
