# Rangers shop: order bookkeeping and user registration in Dafny

This project models two parts of the Rangers shop, a Flask storefront. The
first is the order and inventory bookkeeping behind the JSON order API
(`get_order`, `create_order`, `update_order`, `delete_item_order`). The second
is user registration (`signup` and the `User` record).

**Order bookkeeping.** The store has four tables:
- customers: a set of ids;
- orders: order id to total;
- products: product id to catalog row, with price and quantity on hand;
- ProdOrder: the order lines, as a sequence. The SQL promises no row order;
  the sequence order is the model's choice (see "## Left out").

`Ledger` describes the tables as one value (`Db`). It gives each mutating
handler as a transition: `PlaceOrder`, `UpdateLine` and `DeleteItem`. A
transition returns either the tables after the handler's single commit or the
fault the handler raised before it. A raised fault rolls the session back, so
the tables stay as they were.

`OrderRoutes.Store` is a class holding the four tables, with one method per
handler. Each method stages its changes in local copies and assigns the
tables once at the end, which models the commit. Each method's postcondition
ties the new tables and the reported status to the transition. `LedgerFacts`
proves what the transitions mean:
- the lines `create_order` adds;
- which lookup fails first;
- stock bookkeeping: on hand = stocked − held by lines. All three mutators keep it;
- order-total bookkeeping: total = sum of the order's line prices. `create_order`
  and `delete_item_order` keep it. `update_order` as written breaks it.
- the create-then-delete round trip.

Prices and totals are integer cents. Stock is an unbounded integer, because
nothing in the handlers stops it from going negative.

**Registration.** `UserModel.User` is the User row. Its fields are set once by
its constructor and never changed. `SetId` is `str(uuid.uuid4())`, written out:
32 random hex digits, with the version digit set to 4 and the variant bits set
to `10`, printed 8-4-4-4-12 with hyphens. `FormatRoundTrip` proves that parsing
the string gives back the UUID. `AuthRoutes.UserTable.Signup` checks the
username, then the email, then inserts a new user. The table's invariant is
that user ids, usernames and emails are each pairwise distinct.

Inputs from outside become parameters:
- whether the request is a POST and whether the form validates (booleans);
- the random bits uuid4 draws and the password-hashing function;
- the ids the Order and ProdOrder constructors generate. Methods require these
  ids to be unused.

The line price `create_order` stores is the price the caller sends
(`routes.py:101`). It is not the catalog price times the quantity.

The handlers do not check:
- that a quantity is positive;
- that enough is in stock to sell.

Where the code and its own comments disagree, the model follows the code:
- The comments at `routes.py:145`, `:149` and `:153` say that the order total
  rises or falls with the new quantity. As written, `update_order` does not keep
  order totals equal to the sum of their line prices. See "## Findings".

## Model

| member | source | states |
|---|---|---|
| `OrderRoutes.Store.GetOrder` | rangers_shop/blueprints/api/routes.py:53-76 | Changes nothing. Returns one entry per line of the customer, in the model's row order. Each entry has that line's quantity, order id and id. When the product exists, the entry also has the product's id, name, image, description and price. The product's `quantity` key holds the line's quantity, not the stock on hand. |
| `OrderRoutes.Store.CreateOrder` | rangers_shop/blueprints/api/routes.py:90-113 | The new tables and status are those of `PlaceOrder`. On a fault the tables are unchanged. The ProdOrder primary key stays unique. |
| `OrderRoutes.Store.UpdateOrder` | rangers_shop/blueprints/api/routes.py:135-158 | The new tables and status are those of `UpdateLine`. On a fault the tables are unchanged. Line ids stay unique. |
| `OrderRoutes.Store.DeleteItemOrder` | rangers_shop/blueprints/api/routes.py:184-194 | The new tables and status are those of `DeleteItem`. On a fault the tables are unchanged. Line ids stay unique. |
| `Ledger.CustomerLines` | rangers_shop/blueprints/api/routes.py:53 | The customer query returns no more rows than the table holds, and every row it returns has that customer id. |
| `Ledger.PlaceOrder` | rangers_shop/blueprints/api/routes.py:90-113 | `create_order` as a transition. A fault is always a missing product that the catalog lacks. A commit adds the customer and one line per item. |
| `Ledger.UpdateLine` | rangers_shop/blueprints/api/routes.py:135-158 | `update_order` as written. A fault is a missing line, product or order. A commit sets the first matching line to the new quantity and leaves every other line, the customers and the sets of order and product ids as they were. |
| `Ledger.RepriceLine` | rangers_shop/blueprints/api/routes.py:143-156 | `update_order` corrected, so that the total follows the price change as the comments at lines 145, 149 and 153 say. It has the same kinds of fault, the same changed line and the same frame as `UpdateLine`. Unlike `UpdateLine`, it raises whenever the order is gone, even when the quantity does not rise. |
| `Ledger.DeleteItem` | rangers_shop/blueprints/api/routes.py:184-194 | `delete_item_order` as a transition. A fault is a missing order, line or product. A commit removes exactly one line and keeps the customers and the sets of order and product ids. |
| `Ledger.FirstMissingAbsent` | rangers_shop/blueprints/api/routes.py:109-110 | The product reported missing is one the catalog lacks. |
| `LedgerFacts.PlaceOrderStep` | rangers_shop/blueprints/api/routes.py:99-110 | One more loop iteration extends the sum of prices, the new lines and the depleted catalog by that item alone. It fails exactly when that item's product is missing. |
| `Ledger.FindLine` | rangers_shop/blueprints/api/routes.py:135 | Returns the index of the first line in sequence order with that order and product, or none when no line has them. |
| `LedgerFacts.CustomerLinesSpec` | rangers_shop/blueprints/api/routes.py:53 | The customer query returns every line with that customer id, as often as the table holds it, and no other line. |
| `LedgerFacts.NewLinesShape` | rangers_shop/blueprints/api/routes.py:99-102 | One new line per requested item, in list order. Each line carries its generated id, the item's product, quantity and price, the new order and the customer. |
| `LedgerFacts.NewLinesTotal` | rangers_shop/blueprints/api/routes.py:104-105 | The new lines' prices add up to the sum of the caller's prices. |
| `LedgerFacts.NewLinesReserved` | rangers_shop/blueprints/api/routes.py:108-110 | For each product, the new lines hold exactly the total quantity requested for it. |
| `LedgerFacts.FirstMissingSpec` | rangers_shop/blueprints/api/routes.py:109-110 | Nothing is reported missing exactly when every requested product is in the catalog. Otherwise the report names the first item whose product is absent. |
| `LedgerFacts.FirstMissingPrefix` | rangers_shop/blueprints/api/routes.py:99-110 | Once an item's product is missing, the loop's failure is final: later items do not change which product is reported. |
| `LedgerFacts.PlaceOrderFails` | rangers_shop/blueprints/api/routes.py:109-113 | `create_order` raises if and only if some requested product is not in the catalog. It then reports the first such item's product. |
| `LedgerFacts.PlaceOrderEffect` | rangers_shop/blueprints/api/routes.py:90-102 | After a commit the customer is added only if new. The old lines are unchanged, followed by one line per item in list order. |
| `LedgerFacts.PlaceOrderCharges` | rangers_shop/blueprints/api/routes.py:95-105 | After a commit only the new order is added. Its total is the sum of its new lines' prices, and the other totals are unchanged. |
| `LedgerFacts.PlaceOrderMovesStock` | rangers_shop/blueprints/api/routes.py:108-110 | After a commit each product loses exactly what the new lines hold of it. No product is added or removed. |
| `LedgerFacts.PlaceOneItem` | rangers_shop/blueprints/api/routes.py:95-113 | A one-item order for a catalogued product commits. It adds one line, sets the order total to the item's price and takes the quantity off that product only. |
| `LedgerFacts.PlaceOrderOversells` | rangers_shop/blueprints/api/routes.py:108-110 | No stock guard: ordering 5 of a product with 1 in stock commits and leaves −4. |
| `LedgerFacts.PlaceOrderKeepsDistinctIds` | rangers_shop/blueprints/api/routes.py:101-102 | With fresh line ids, line ids stay pairwise distinct. |
| `LedgerFacts.PlaceOrderKeepsReferences` | rangers_shop/blueprints/api/routes.py:90-110 | Every line still refers to an existing order, customer and product. |
| `LedgerFacts.PlaceOrderKeepsInventory` | rangers_shop/blueprints/api/routes.py:108-110 | Keeps the stock bookkeeping: on hand = stocked − quantity held by lines. |
| `LedgerFacts.PlaceOrderKeepsTotals` | rangers_shop/blueprints/api/routes.py:99-105 | Keeps the order-total bookkeeping when the new order id is fresh. |
| `LedgerFacts.UpdateLineFails` | rangers_shop/blueprints/api/routes.py:135-153 | Fails with a missing line first, then a missing product. A missing order is reported only when the quantity increases. Commits exactly when a matching line and the product exist and either the order exists or the quantity does not increase. A decrease on a deleted order therefore commits. |
| `LedgerFacts.UpdateLineEffect` | rangers_shop/blueprints/api/routes.py:141-156 | The first matching line ends at the new quantity, priced at catalog price × new quantity. No other line and no customer changes. |
| `LedgerFacts.UpdateLineMovesStock` | rangers_shop/blueprints/api/routes.py:143-152 | Stock moves by the quantity change, in the opposite direction. Equal quantities leave the catalog unchanged. |
| `LedgerFacts.UpdateLineCharges` | rangers_shop/blueprints/api/routes.py:147-153 | On an increase the order total grows by the line's whole new price. Otherwise no total changes. |
| `LedgerFacts.UpdateLineKeepsInventory` | rangers_shop/blueprints/api/routes.py:143-156 | `update_order` keeps the stock bookkeeping. |
| `LedgerFacts.UpdateLineKeepsReferences` | rangers_shop/blueprints/api/routes.py:141-156 | `update_order` keeps every line referring to existing rows, and line ids unique. |
| `LedgerFacts.DeleteItemFails` | rangers_shop/blueprints/api/routes.py:184-191 | Fails with a missing order first, then a missing line. Commits exactly when the order, the product and a matching line all exist. |
| `LedgerFacts.DeleteItemEffect` | rangers_shop/blueprints/api/routes.py:190-191 | The order total drops by the deleted line's price, and the product gets the line's quantity back. Customers are unchanged. |
| `LedgerFacts.DeleteItemRemovesOneLine` | rangers_shop/blueprints/api/routes.py:193 | Only the first matching line in sequence order is removed. The others keep their order. |
| `LedgerFacts.DeleteItemKeepsInventory` | rangers_shop/blueprints/api/routes.py:191-193 | `delete_item_order` keeps the stock bookkeeping. |
| `LedgerFacts.DeleteItemKeepsTotals` | rangers_shop/blueprints/api/routes.py:190-193 | `delete_item_order` keeps the order-total bookkeeping. |
| `LedgerFacts.DeleteItemKeepsReferences` | rangers_shop/blueprints/api/routes.py:193 | `delete_item_order` keeps every line referring to existing rows, and line ids unique. |
| `LedgerFacts.CreateThenDeleteRestores` | rangers_shop/blueprints/api/routes.py:184-193 | Create a one-item order, then delete its line. Stock and lines return to what they were. The new order's total is zero. The customer is added. |
| `LedgerFacts.ThreeOrderedPlaced` | rangers_shop/blueprints/api/routes.py:95-113 | Ordering 3 of a 5.00 product with 10 in stock, priced 15.00 by the caller, gives total 15.00 and stock 7. Both bookkeepings hold. |
| `LedgerFacts.UpdateIncreaseOvercharges` | rangers_shop/blueprints/api/routes.py:147-149 | Raising that line to 5 gives total 40.00 while the line is priced 25.00. Deleting the line leaves 15.00 on an order with no lines. |
| `LedgerFacts.UpdateDecreaseKeepsCharge` | rangers_shop/blueprints/api/routes.py:151-153 | Lowering that line to 1 leaves the total at 15.00 while the line is priced 5.00. |
| `LedgerFacts.RepriceLineKeepsTotals` | rangers_shop/blueprints/api/routes.py:143-153 | The corrected update keeps the order-total bookkeeping. |
| `LedgerFacts.RepriceLineKeepsInventory` | rangers_shop/blueprints/api/routes.py:143-153 | The corrected update keeps the stock bookkeeping. |
| `LedgerFacts.RepriceScenario` | rangers_shop/blueprints/api/routes.py:143-153 | With the corrected update, the same sequence gives 25.00, then 0.00 with 10 back in stock. |
| `UserModel.SetId` | rangers_shop/models.py:40-41 | The id has 36 characters. Hyphens are at 8, 13, 18 and 23. The version digit is `4` and the variant digit is one of `89ab`. Every other character is a lower-case hex digit. |
| `UserModel.FormatRoundTrip` | rangers_shop/models.py:41 | Parsing the string form of a UUID gives back that UUID. |
| `UserModel.SetIdInjective` | rangers_shop/models.py:32 | Two ids are equal exactly when their UUIDs are. |
| `UserModel.SetPassword` | rangers_shop/models.py:44-45 | The stored password is the hasher's output for the given plaintext. |
| `UserModel.User.constructor` | rangers_shop/models.py:31-37 | Stores username, email, first and last name as given. The id is `SetId` of the drawn bits. The password is the hash of the input. |
| `UserModel.NewUserWithoutNames` | rangers_shop/models.py:31 | Without names, first and last name are empty strings. |
| `AuthRoutes.FindByUsername` | rangers_shop/blueprints/auth/routes.py:33 | Returns the position of the first user with that username. It returns none exactly when no user has it. |
| `AuthRoutes.FindByEmail` | rangers_shop/blueprints/auth/routes.py:37 | Returns the position of the first user with that email. It returns none exactly when no user has it. |
| `AuthRoutes.AddKeepsUnique` | rangers_shop/models.py:22-26 | Adding a user whose id, username and email are all new keeps them pairwise distinct. The queries then find only that user. |
| `AuthRoutes.UserTable.Signup` | rangers_shop/blueprints/auth/routes.py:23-53 | Anything but a valid POST changes nothing. An existing username is reported first and adds no user. Otherwise an existing email is reported and adds no user. Otherwise exactly one new user is appended with the given fields, and the existing users are unchanged. Uniqueness holds afterwards. |

## Left out

- HTTP and UI plumbing is not modelled: routing, JWT checks, `request.json`
  parsing, `jsonify`, `flash`, `redirect` and `render_template`. Handler
  inputs are parameters, and responses are result values.
- Request bodies missing a key, and `int()` of a non-numeric quantity, are not
  modelled. Both raise before any change. Items are typed records.
- `token` and `get_shop` are not modelled. One issues a token, the other only
  reads and dumps the catalog.
- The `print` calls at `api/routes.py:88` and `auth/routes.py:30` are not
  modelled. The second writes the plaintext password to standard output.
- The fields `product_schema` dumps are not shown. An entry of `get_order`
  carries the product's id and every Product column the model has (name,
  image, description, price). Its `quantity` is overwritten by the line's
  quantity, as `routes.py:69` does. When the product row is gone, the entry has
  no product fields at all.
- Decimal arithmetic is replaced by integer cents.
- Timestamps (`date_added` and the other creation times) are not modelled.
- uuid4's randomness and password hashing are parameters.
- The `String(30)`/`String(150)` column lengths are not modelled.
- ProdOrder is modelled as a sequence, but the SQL promises no order: `.all()`
  at `routes.py:53` and `.first()` at `routes.py:135` and `:184` have no
  ORDER BY. Two choices are the model's, not the source's:
  - the order of `OrderRoutes.Store.GetOrder`'s entries;
  - which of two lines with the same order and product `Ledger.FindLine`,
    `Ledger.UpdateLine` and `Ledger.DeleteItem` act on. Such duplicates arise
    when `create_order`'s list names a product twice. The model takes the
    earliest line in the sequence.
  An updated line keeps its place in the sequence.
- Concurrent requests are not modelled. Each handler is one atomic step.
- Uniqueness of order ids and ProdOrder ids is not derived. It is a
  precondition standing for uuid freshness.
- The Product, Order, ProdOrder and Customer classes are not part of this
  model's source. Their helpers are modelled by their names: add, subtract,
  price := unit × quantity, quantity := n. A new order's total starts at 0.
- `OrderRoutes.Store.UpdateOrder`: `product.decrement_order_total(...)` on a
  decrease is taken to change no modelled column. If Product has no such
  method, the call raises and the whole update rolls back instead.
- `UserModel.SetPassword`: states only that the stored value is the hasher's
  output. Nothing is proved about the hasher itself.
- `UserModel.User.constructor`: states that the stored password is
  `hash(password)` for the hasher given. It does not state that this differs
  from the plaintext, because that is a property of the hasher.
- `AuthRoutes.UserTable.Signup`: requires the drawn uuid to give an id no
  user has. This stands for uuid4 not repeating.

## Findings

| source | as written | input that shows it | evidently intended | confidence | as-written member | corrected member |
|---|---|---|---|---|---|---|
| rangers_shop/blueprints/api/routes.py:147-149 | On a quantity increase, the order total grows by the line's whole new price. | Order total 15.00; one line of 3 priced 15.00; catalog price 5.00. Update to 5: total becomes 40.00, line 25.00. | The total grows by the change in the line's price, to 25.00. | not executed; proved on the model | `LedgerFacts.UpdateIncreaseOvercharges` (on `Ledger.UpdateLine`) | `LedgerFacts.RepriceLineKeepsTotals` (on `Ledger.RepriceLine`) |
| rangers_shop/blueprints/api/routes.py:151-153 | On a quantity decrease, `decrement_order_total` is called on the product, so the order total never falls. | Same order; update to 1: total stays 15.00, line 5.00. | The total falls by the change in the line's price, to 5.00. | not executed; proved on the model | `LedgerFacts.UpdateDecreaseKeepsCharge` (on `Ledger.UpdateLine`) | `LedgerFacts.RepriceLineKeepsTotals` (on `Ledger.RepriceLine`) |

`OrderRoutes.Store.UpdateOrder` follows the code as written. `Ledger.RepriceLine`
is the corrected transition. The stock bookkeeping is proved for both versions.
