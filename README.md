# Shop bookkeeping and registration, modelled in Dafny

This project models the stateful core of a small Flask/SQLAlchemy shop backend:

- the **inventory and order bookkeeping** of `app/model.py`: products whose stock is
  reduced under a guard and increased without one; order items that are created
  against the stock and cancelled back into it; orders that are cancelled by returning
  every item's quantity; cart items whose quantity is changed or which are removed by
  the first row matching a cart and a product; the order, item and cart totals; and
  the dictionary importers of users and products;
- the **registration handler** `register()` of `app/api_v1/user.py`, without its HTTP
  layer: checks in a fixed order, then one insertion into a user store keyed by email.

Files and modules:

| file | module | contents |
|---|---|---|
| `common.dfy` | `Common` | `Option`, `Status` (normal end or the shop's `ValidationError` with its message) |
| `totals.dfy` | `Totals` | priced lines and their sum, with lemmas on how sums change |
| `tables.dfy` | `Tables` | the order, order_item and cart_item rows as values; the pure functions over the tables (an order's items, stock given back, first matching cart row, priced lines) and their lemmas |
| `model.dfy` | `Model` | classes `User`, `Product` (fields updated in place) and `Store`, which stands for the database session over the tables |
| `register.dfy` | `Registration` | the request, the outcome, the handler's decision and the class `UserStore` with `Register` |

Abstractions:

- Prices are a floating-point column in the shop (app/model.py:71). Here they are
  integers in minor currency units (cents). This is an abstraction: totals are exact,
  so they do not depend on the order in which items are summed (`Totals.SumPermutation`).
  Float rounding is not modelled.
- The persistence layer is reduced to Dafny collections in the `Store` and
  `UserStore` objects. Each method is one atomic step, although the source commits
  more than once inside some operations (see "## Left out").
  Rows of the order_item and cart_item tables are identified by their position in the
  table. A query's `.first()` is the first row in table order.
- Password hashing is a function-valued parameter `hash` of the methods that store a
  secret. The model stores exactly `Some(hash(password))` and assumes nothing else about `hash`.
- The handler's outcome is the datatype `Outcome` (`Mismatch`, `Duplicate`, `Created`,
  `MethodNotAllowed`), not an HTTP status. `Registration.Message` gives the message sent
  with each outcome.

Behaviour of the code that the model keeps or departs from:

- Stock is checked only on decrease. `reduce_quantity` guards the stock (app/model.py:108);
  `increase_quantity` (app/model.py:114-116) adds whatever it is given.
  `OrderItem.create` admits a negative quantity because `stock >= q` holds for it. Giving
  such a row back on cancellation lowers the stock, and can take it below zero
  (`Tables.NegativeRowCanDriveStockNegative`). Stock stays non-negative only while every
  row's quantity is non-negative (`Tables.RestockKeepsStockNonNegative`).
- `Order.cancel` deletes only the order row (app/model.py:156). The model also deletes
  the order's rows, so that the store stays consistent (see "## Left out").
- `Order.create` (app/model.py:143-151) builds an `Order` from order-item arguments.
  `Model.Store.CreateOrder` models what that copy of `OrderItem.create` evidently
  intends, not what the code does (see "## Left out").

## Model

| member | source | states |
|---|---|---|
| `Model.User.constructor` | app/api_v1/user.py:25 | a new user carries the given username and email and has no password hash yet |
| `Model.User.SetPassword` | app/model.py:24-25 | the stored secret becomes `Some(hash(password))`; nothing else about the user changes |
| `Model.User.ImportData` | app/model.py:53-59 | with `username` missing it raises "Invalid customer: missing username" and changes nothing; with `username` present and `email` missing it raises "Invalid customer: missing email" after the username has already been overwritten (a partial update); with both present it sets both and ends normally |
| `Model.Product.constructor` | app/model.py:67-77 | a product starts with the given id, name, price, description and stock |
| `Model.Product.ImportData` | app/model.py:100-105 | `name` is the only key required: present, it is copied; absent, "Invalid product: missing name" is raised and the name is unchanged |
| `Model.Product.ReduceQuantity` | app/model.py:107-112 | if stock >= q the stock becomes stock - q; otherwise "Insufficient quantity in stock." is raised and the stock is unchanged; after a successful call the stock is non-negative, whatever the sign of q |
| `Model.Product.IncreaseQuantity` | app/model.py:114-116 | the stock rises by exactly q, with no check |
| `Model.Store.CreateOrderItem` | app/model.py:170-178 | with enough stock, exactly one row (order, product, q) is appended and that product's stock drops by exactly q, all other stock unchanged; otherwise it raises, no row is added and no stock changes; the store's referential invariant is kept |
| `Model.Store.CreateOrder` | app/model.py:143-151 | the evident intent of the copy: the same guard and the same effect on rows and stock as `OrderItem.create` |
| `Model.Store.ReturnStock` | app/model.py:154-155 | after the loop over an order's items, every product's stock has risen by the sum of the quantities of the rows that reference it (`Restock`); prices unchanged |
| `Model.Store.CancelOrder` | app/model.py:153-157 | each product's stock rises by the total quantity the order's rows took of it; the order and exactly its rows are deleted; other orders and rows remain |
| `Model.Store.CancelOrderItem` | app/model.py:180-183 | exactly the row's quantity goes back to the row's product, no other stock changes, and only that row is deleted |
| `Model.Store.UpdateCartQuantity` | app/model.py:208-215 | only the first row matching (cart, product) gets the new quantity, every other row is unchanged; with no match nothing changes; stock and prices never change |
| `Model.Store.RemoveCartItem` | app/model.py:217-224 | only the first row matching (cart, product) is deleted, the others keep their order; with no match nothing changes; stock and prices never change |
| `Model.Store.OrderTotal` | app/model.py:132-133 | an order's total is the sum of its own rows (`ItemsOf`), each priced at its product's price times its quantity; an order with no items totals 0 |
| `Model.Store.ItemTotal` | app/model.py:185-186 | an item's price times quantity equals the total of an order consisting of that item alone |
| `Model.Store.OrderTotalIsSumOfItemTotals` | app/model.py:132-133 | an order's total is the sum of `OrderItem.get_total_price` (app/model.py:185-186) over the rows of that order |
| `Model.Store.OrderTotalUpTo` | app/model.py:133 | over the first n rows of the table, an order's priced lines add up to the item totals of its rows among them |
| `Model.Store.CartTotal` | app/model.py:205-206 | a cart with no rows totals 0 |
| `Totals.SumAppend` | app/model.py:133 | the total of two runs of lines is the sum of their totals |
| `Totals.SumNonNegative` | app/model.py:206 | with non-negative prices and quantities a total is non-negative |
| `Totals.SumUpdate` | app/model.py:206 | replacing one line changes the total by exactly the difference of the two line totals |
| `Totals.SumRemove` | app/model.py:206 | dropping one line lowers the total by exactly its line total |
| `Totals.SumPermutation` | app/model.py:133 | with exact prices, a total does not depend on the order of the items |
| `Tables.ItemsOf` | app/model.py:126 | an order's items are exactly the rows whose order id is that order |
| `Tables.Without` | app/model.py:156 | after deleting an order, the remaining rows are exactly those of other orders |
| `Tables.ItemsOfPartition` | app/model.py:153-157 | an order's rows and the rows left after deleting it are, together, exactly the table, each row once |
| `Tables.ItemsOfAppend` | app/model.py:171-178 | a created row joins the item list of its own order, at the end, and of no other order |
| `Tables.WithoutAbsent` | app/model.py:156 | deleting an order that has no rows leaves the table unchanged |
| `Tables.WithoutAppend` | app/model.py:156 | a created row survives deleting an order exactly when it belongs to another order |
| `Tables.QuantityForStep` | app/model.py:154-155 | each step of the cancel loop adds the row's quantity to its own product and to no other |
| `Tables.Consume` | app/model.py:171-178 | a run of successful creations changes stock levels but never the set of products |
| `Tables.ConsumeAt` | app/model.py:171-178 | after a run of creations, each product's stock is down by the quantities the run took of it |
| `Tables.RestockUndoesConsume` | app/model.py:153-178 | creating order items and then giving back what they took restores every product's original stock |
| `Tables.RestockSingle` | app/model.py:171-183 | giving back one created row restores the stock it took |
| `Tables.QuantityForNonNegative` | app/model.py:114-116 | rows with non-negative quantities never give back a negative amount |
| `Tables.RestockKeepsStockNonNegative` | app/model.py:153-157 | with non-negative row quantities, cancelling keeps non-negative stock non-negative |
| `Tables.NegativeRowCanDriveStockNegative` | app/model.py:153-178 | the creation guard admits a row of -5 on an empty product; when the 5 units it added are sold and its order is cancelled, that product's stock is -5 |
| `Tables.Priced` | app/model.py:133 | one line per row, in row order, each with the row's product price and the row's quantity |
| `Tables.OrderLinesMatchItems` | app/model.py:126-133 | an order's priced lines are exactly its own items (`Order.items`), each priced, in table order |
| `Tables.OrderSumUnfold` | app/model.py:133 | an order's total is the first row's line total, if that row is the order's, plus the total of the remaining rows |
| `Tables.OrderTotalAfterAppend` | app/model.py:132-178 | a created row raises its own order's total by price times quantity and leaves other orders' totals unchanged |
| `Tables.OrderTotalAfterRemove` | app/model.py:132-183 | deleting a row lowers its own order's total by its line total and leaves other orders' totals unchanged |
| `Tables.OrderLinesWithout` | app/model.py:132-157 | a cancelled order has no lines left, and every other order keeps exactly its lines |
| `Tables.FirstMatch` | app/model.py:210-212 | it finds no row exactly when no row matches (cart, product); otherwise it finds a matching row with no matching row before it |
| `Tables.CartLinesEmpty` | app/model.py:205-206 | a cart with no rows has no priced lines |
| `Tables.CartSumUnfold` | app/model.py:206 | a cart's total is the first row's line total, if that row is the cart's, plus the total of the remaining rows |
| `Tables.CartTotalAfterUpdate` | app/model.py:205-215 | changing a row's quantity changes its own cart's total by the difference of the two line totals and leaves other carts' totals unchanged |
| `Tables.CartTotalAfterRemove` | app/model.py:205-224 | deleting a row lowers its own cart's total by its line total and leaves other carts' totals unchanged |
| `Registration.Decide` | app/api_v1/user.py:12-30 | the handler answers Created only to a POST whose password equals its confirmation and whose email is not registered; a registered email never yields Created; a confirmed POST with a registered email yields Duplicate; any other method yields MethodNotAllowed |
| `Registration.MessagesDistinct` | app/api_v1/user.py:19-30 | the four outcomes are sent with four different messages |
| `Registration.MismatchBeforeDuplicate` | app/api_v1/user.py:18-23 | a POST with a mismatched confirmation is answered Mismatch even when its email is already registered |
| `Registration.UsernameNotChecked` | app/api_v1/user.py:21-28 | a POST with a confirmed password and a new email is answered Created whatever its username |
| `Registration.UserStore.Register` | app/api_v1/user.py:11-30 | the outcome is that of the checks, in order (method, confirmation, email); every outcome but Created leaves the store unchanged; Created adds exactly one fresh user, under the request's email, with the request's username and secret `hash(password)`, and every other entry stays the same |
| `Registration.RegisterTwice` | app/api_v1/user.py:21-28 | after a successful registration, a second POST with the same email and a confirmed password is answered Duplicate, and no second registration with that email is ever Created |

## Left out

- Model.Store.CreateOrder: the source builds an `Order` from keyword arguments (`order`, `product`, `quantity`) that the Order entity does not declare (app/model.py:146). SQLAlchemy's declarative constructor rejects undeclared keywords with a TypeError. So, when there is enough stock, the source raises at app/model.py:146 before `reduce_quantity` runs, and changes nothing. The model instead does what the copy of `OrderItem.create` evidently intends: it records an order-item row and takes the stock.
- Registration.UserStore.Register: the username column is unique (app/model.py:13), and the database would refuse the commit of a second user with a taken username. The model's store does not enforce that constraint. `Register` therefore adds such a user, where the source would fail with a database error.
- Model.Store.CancelOrder: the `items` relationship (app/model.py:126) has no delete cascade. By SQLAlchemy's default, deleting the order sets each item's `order_id` to NULL, and the NOT NULL at app/model.py:163 refuses that. For an order with items, the commit at app/model.py:157 therefore fails. The stock returns were already committed one by one by `increase_quantity` (app/model.py:116), so the order survives, and cancelling it again returns the stock a second time. The model does not capture this. It deletes the order together with its rows in one atomic step.
- Intermediate commits: `reduce_quantity` commits inside `OrderItem.create` (app/model.py:110, then :176), and `increase_quantity` commits once per item inside `Order.cancel` (app/model.py:116, then :157). The model's methods are single atomic steps and do not model a failure between these commits.
- Model.Store.CancelOrderItem: the source deletes the item object it is called on. The model deletes the row at the given position.
- Form fields that are absent arrive as None in `register()`. The model takes all four fields as strings.
- Floating-point prices and their rounding: prices are integers in minor units.
- Registration.UserStore.Register: `hash` is a total function here. Flask-Bcrypt's `generate_password_hash` raises ValueError on an empty password, so in the source a confirmed POST with an empty password and a new email fails at app/api_v1/user.py:26 and adds no user. The model answers Created and adds the user.
- Password hashing (bcrypt), including its salt, and `User.check_password`: these are foreign library calls. Hashing is a parameter.
- The HTTP layer of `register()` (routing, JSON bodies, status codes): `Outcome` and `Message` stand for them.
- `export_data`, `get_url`, `CartItem.price`, `__repr__` and date formatting: these are serialization and URL helpers.
- `Order.get_orders_by_user` and `load_user`: these are query wrappers.
- `Order.update_status` and `OrderItem.update_status`: they only assign one field.
- The Cart, Checkout and User foreign keys of orders and carts: no modelled operation reads or changes them.
- Sessions, commits, timestamps and concurrency: each method is one sequential, atomic step. The source takes no locks.
- `app/__init__.py` (application factory and configuration) and `tests/test_app.py` (an HTTP smoke test) are not part of this model.
