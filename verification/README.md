# Order creation with stock reservation, modelled in Dafny

The system places an order in one database transaction. It inserts an
`orders` row and reads back the new id. It checks every requested item
against the `products` stock. It deducts each item's quantity, stamps the
order id on every item and batch-inserts the `order_items` rows. Then it
commits. Any exception rolls the whole transaction back and is re-thrown to
the caller.

The model treats `OrderService.createOrder` as a pure function. It maps a
database state and an order to an `Outcome`: the returned id or the thrown
error, the database afterwards, and the caller's order. The order is returned
because the routine mutates its items in place. The database state `Db` holds
the stock table (product id to stock), the set of order ids, the sequence of
`order_items` rows, and the next value of the order id sequence. Rolling
back restores the stock, the orders and the line items the call started
from. It does not give back an order id already drawn from the sequence,
because a PostgreSQL sequence never moves backwards.

What the code cannot observe about the database is a parameter, `Storage`. It
says whether `INSERT ... RETURNING id` yields a row. It also says which
statement, if any, throws an SQL exception: obtaining the connection, the
order insert, `executeBatch` or `commit`.

Modules:

- `OrderItems` (`order_item.dfy`): the `OrderItem` holder, its constructors and setters.
- `Orders` (`order.dfy`): the `Order` holder, its constructors, `addItem` (both overloads), the setters and the two totals.
- `Inventory` (`inventory.dfy`): the database state and the two passes `createOrder` makes over the stock table in `OrderService.java`. The verification pass is `FirstShortfall`. The deduction pass is `UpdateStock` and `DeductAll`.
- `OrderService` (`order_service.dfy`): the transaction (`Run`, `CreateOrder`) and its properties.
- `Scenarios` (`scenarios.dfy`): the demo program's two orders, placed one after the other, plus an order that names a missing product.
- `Wrappers` (`wrappers.dfy`): `Option` and `Result`, with no counterpart in the source.

The code raises no allocation, deduction or insert failure, and the model
follows the code:

- If the order insert returns no row, the local id keeps its initial `-1` and the routine carries on. The line items are then written with order id `-1`.
- An `UPDATE` of stock that matches no row is ignored; its row count is only printed. After a successful verification pass every product exists, so this case cannot arise in the sequential model. `UpdateStock` still models it.
- The count returned by `executeBatch` is never compared with the number of items.

The model also follows the code in two further places:

- Every item is checked against the stock as it was before any deduction. Two items for the same product can each pass while their sum exceeds the stock. The stock then goes negative (see Findings).
- The items' `orderId` is set in memory before the batch runs. A rollback does not undo that, so a failure of the batch or the commit leaves the caller's items stamped.

## Model

| member | source | states |
|---|---|---|
| OrderItems.Blank | src/model/OrderItem.java:12-13 | the no-argument constructor leaves all three fields at Java's default 0 |
| OrderItems.New | src/model/OrderItem.java:16-20 | the full constructor stores order id, product id and quantity exactly as given |
| OrderItems.NewIsFaithful | src/model/OrderItem.java:16-20 | every item is rebuilt from its own fields by the constructor, and two constructions are equal exactly when their three arguments are |
| OrderItems.SetOrderId | src/model/OrderItem.java:27-29 | sets the order id; product id and quantity are unchanged |
| OrderItems.SetProductId | src/model/OrderItem.java:35-37 | sets the product id; order id and quantity are unchanged |
| OrderItems.SetQty | src/model/OrderItem.java:43-45 | sets the quantity; order id and product id are unchanged |
| OrderItems.SettersLastWriteWins | src/model/OrderItem.java:27-45 | a second call of a setter overrides the first; setting a field to its current value is the identity |
| OrderItems.SettersCommute | src/model/OrderItem.java:12-45 | setters of different fields commute; setting all three fields of a blank item gives the full constructor's item |
| Orders.Empty | src/model/Order.java:16-18 | `new Order()` has id 0, no creation time, no items, zero totals |
| Orders.WithId | src/model/Order.java:21-24 | `new Order(id)` has the given id, no creation time, no items, zero totals |
| Orders.WithIdAt | src/model/Order.java:27-31 | `new Order(id, createdAt)` has the given id and time (a null time included), no items, zero totals |
| Orders.AddItem | src/model/Order.java:34-36 | appends the item at the end, keeps the earlier items, and raises the item count by one and the total quantity by the item's quantity |
| Orders.AddProduct | src/model/Order.java:39-41 | appends a new item carrying the order's current id and the given product and quantity; the total quantity rises by that quantity |
| Orders.QtySumAppend | src/model/Order.java:74-76 | the total quantity of a list with one more item is the old total plus that item's quantity |
| Orders.AddAllAppends | src/model/Order.java:34-36 | a run of `addItem` calls leaves exactly the added items after the old ones, in order; the count grows by their number and the total by their quantity sum |
| Orders.SetId | src/model/Order.java:48-50 | changes only the id; items, creation time and both totals are kept |
| Orders.SetCreatedAt | src/model/Order.java:56-58 | changes only the creation time |
| Orders.SetItems | src/model/Order.java:64-66 | replaces the item list wholesale; the totals become those of the new list |
| Inventory.CheckItem | src/service/OrderService.java:78-96 | an item is rejected exactly when its product is missing, with `ProductNotFound`, or when the stock is strictly below the quantity, with `InsufficientStock` carrying the stock and the quantity |
| Inventory.FirstShortfall | src/service/OrderService.java:77-98 | the pass finds nothing exactly when every item passes against the undeducted stock; otherwise it reports the first rejected item's error, and all items before it passed |
| Inventory.UpdateStock | src/service/OrderService.java:103-114 | a stock update subtracts the quantity from an existing product and touches nothing else; on a missing product it matches zero rows and changes nothing |
| Inventory.DeductAll | src/service/OrderService.java:106-115 | the deduction pass keeps the set of products |
| Inventory.DeductAllSubtractsDemand | src/service/OrderService.java:106-115 | after the deduction pass each product's stock is its old stock minus the sum of the quantities of the items naming it |
| Inventory.DemandOfUnnamed | src/service/OrderService.java:106-115 | a product no item names has zero demand |
| Inventory.DemandOfDistinct | src/service/OrderService.java:106-115 | with distinct product ids, the demand on an item's product is that item's quantity |
| Inventory.DeductAllKeepsUnnamed | src/service/OrderService.java:106-115 | the deduction pass leaves the stock of products the order does not name unchanged |
| Inventory.DeductAllNonNegative | src/service/OrderService.java:77-115 | with distinct product ids and non-negative stock, items that pass verification leave every stock non-negative |
| Inventory.FirstShortfallReserving | src/service/OrderService.java:77-98 | corrected verification pass: a rejection names a product that some item requests |
| Inventory.ReservingVerdict | src/service/OrderService.java:77-98 | the corrected pass accepts exactly when every item passes against the stock left by the items before it; otherwise it reports the first item that does not, and all items before it passed |
| Inventory.ReservingStepAccepts | src/service/OrderService.java:77-98 | when the first item passes, the whole list passes against the running stock exactly when the rest passes against the stock that item leaves |
| Inventory.ReservingStepRejects | src/service/OrderService.java:77-98 | when the first item passes, the first rejection in the rest is, one position later, a first rejection in the whole list |
| Inventory.ReservedStep | src/service/OrderService.java:103-115 | the stock left by the first k items is the stock left by the first k-1 of the rest, once the first item is deducted |
| Inventory.PassReservingShift | src/service/OrderService.java:77-98 | when the first item passes, the first k+1 items pass against the running stock exactly when the first k of the rest do after deducting it |
| Inventory.CheckReservingShift | src/service/OrderService.java:77-98 | checking item k+1 against the running stock is checking the rest's item k against the stock left after the first item |
| Inventory.ReservingKeepsNonNegative | src/service/OrderService.java:77-115 | items the corrected verification accepts never drive a non-negative stock below zero, whether or not products repeat |
| Inventory.FirstShortfallFrame | src/service/OrderService.java:77-98 | the verification verdict depends only on the stock of the products the items name |
| Inventory.ReservingAgreesOnDistinct | src/service/OrderService.java:77-98 | with distinct product ids the corrected verification and the one as written give the same verdict |
| OrderService.InsertOrder | src/service/OrderService.java:63-70 | when a row comes back, the order id is the sequence's next value, the sequence advances by one, the id lies above every existing order id and is added to the orders; when none does, the id is -1 and nothing is written |
| OrderService.Rollback | src/service/OrderService.java:145-156 | every table goes back to the state before the call; the id sequence keeps the value the transaction drew |
| OrderService.AssignOrderId | src/service/OrderService.java:122-123 | every item gets the order id; product ids, quantities and the item order are kept |
| OrderService.AssignOrderIdKeepsTotals | src/service/OrderService.java:122-123 | stamping the order id keeps the item count and the total quantity |
| OrderService.Run | src/service/OrderService.java:44-156 | for either verification pass: a failure restores the stock, orders and line items; the id sequence advances exactly when the order insert returned a row; order ids stay well formed; success holds exactly when no statement throws and verification finds nothing; a rejection leaves the caller's order untouched; an SQL error names the statement that threw |
| OrderService.CreateOrder | src/service/OrderService.java:44-156 | success exactly when no statement throws and every item passes against the undeducted stock; any failure restores the stock, orders and line items, while an id drawn by the order insert stays drawn; a rejection reports the first rejected item and leaves the caller's items alone |
| OrderService.MissingProductRollsBack | src/service/OrderService.java:81-95 | an item naming a missing product makes the call fail with stock, orders (including the just-inserted row) and line items unchanged |
| OrderService.ShortfallRollsBack | src/service/OrderService.java:89-93 | an item asking strictly more than the stock makes the call fail with stock, orders and line items unchanged |
| OrderService.ExactStockPasses | src/service/OrderService.java:89 | an item asking exactly the available stock passes its check |
| OrderService.NoDeductionUnlessAllPass | src/service/OrderService.java:77-115 | stock changes only if every item passed verification and no statement threw |
| OrderService.SuccessDeductsDemand | src/service/OrderService.java:103-115 | on success each product's stock drops by the total quantity requested of it; products not named keep their stock |
| OrderService.SuccessInsertsLineItems | src/service/OrderService.java:119-143 | on success exactly one line item per order item is appended, in item order, each with the returned id; the caller's items carry that id too |
| OrderService.SuccessAllocatesOrder | src/service/OrderService.java:52-70 | on success the returned id is the inserted order's fresh id, and it is -1 exactly when the insert returned no row; order ids stay well formed |
| OrderService.EmptyOrderSucceeds | src/service/OrderService.java:63-143 | on any database, an order without items commits when no statement throws: one order row, no line items, no stock change |
| OrderService.DistinctProductsKeepStockNonNegative | src/service/OrderService.java:77-115 | with distinct product ids per order, stock that starts non-negative stays non-negative after the call |
| OrderService.DuplicateProductOversells | src/service/OrderService.java:77-115 | two items of 3 for a product with stock 5 both pass and the committed stock is -1 |
| OrderService.CreateOrderReserving | src/service/OrderService.java:44-156 | corrected routine: keeps every non-negative stock non-negative; succeeds exactly when no statement throws and every item passes against the stock left by the items before it; a rejection names the first item that does not and leaves the caller's items alone; any failure restores the stock, orders and line items; an SQL error names the statement that threw |
| OrderService.ReservingAllocatesOrder | src/service/OrderService.java:63-70 | for the corrected routine, the id sequence advances exactly when the order insert returned a row, and order ids stay well formed |
| OrderService.ReservingSuccessEffects | src/service/OrderService.java:63-143 | on success of the corrected routine, repeated products included: the returned id is the insert's id (-1 with no row); every product's stock drops by the total quantity requested of it, and with non-negative stock that total never exceeds the stock; the caller's items are stamped with the id and appended as line items in order |
| OrderService.ReservingMatchesOnDistinct | src/service/OrderService.java:77-98 | on orders with distinct product ids the corrected routine and the one as written return the same outcome |
| OrderService.SameVerdictSameOutcome | src/service/OrderService.java:44-156 | two verification passes that return the same verdict give the same transaction outcome |
| OrderService.ReservingRejectsOversell | src/service/OrderService.java:77-98 | the corrected routine rejects the overselling order with `InsufficientStock(1, 2, 3)`; no table changes and only the drawn order id is used up |
| OrderService.RunAllKeepsInvariants | src/service/OrderService.java:44-156 | over any sequence of calls whose orders name distinct products, stock stays non-negative and order ids stay well formed |
| Scenarios.Build | src/Demo.java:71-76 | an order built with `new Order()` and `addItem(new OrderItem(0, p, q))` holds exactly those items in that order |
| Scenarios.SuccessCase | src/Demo.java:74-76 | on a fresh database (no orders, id sequence at 1), laptops 2, phones 5, earbuds 10 against stock 10, 25, 50 commit as order 1; stock becomes 8, 20, 40, three line items for order 1 are written and the next order id is 2 |
| Scenarios.SuccessCaseStock | src/Demo.java:74-76 | the deduction pass of the first demo order, product by product |
| Scenarios.FailureCase | src/Demo.java:105-107 | 20 tablets against stock 8 fail with `InsufficientStock(5, 8, 20)`; every table stays as the first order left it, and order id 2 is used up |
| Scenarios.MissingProductCase | src/service/OrderService.java:94-95 | an order naming product 99, which does not exist, fails with `ProductNotFound(99)`; no table changes and only order id 1 is used up |

## Findings

| source | as written | input that shows it | evidently intended | confidence | as-written member | corrected member |
|---|---|---|---|---|---|---|
| src/service/OrderService.java:77-115 | each item is checked against the stock before any deduction, so items for the same product are never checked together | stock {1: 5}; items (product 1, qty 3), (product 1, qty 3): both pass, the order commits, stock of product 1 becomes -1 | stock never goes negative: the second item should be checked against the 2 units left | high; not executed | OrderService.DuplicateProductOversells | OrderService.CreateOrderReserving |

`CreateOrder` models the routine as written. `CreateOrderReserving` checks each
item against the stock left by the items before it. It is proved to keep
stock non-negative for every order. On success it still deducts each product's
full demand and writes every line item (`ReservingSuccessEffects`). It behaves exactly like `CreateOrder` on
orders with distinct product ids (`ReservingMatchesOnDistinct`).

## Left out

- Connection handling, `setAutoCommit`, the `finally` block that closes statements and result sets, and all console output: resource plumbing and logging with no effect on the database state.
- A failing rollback: the model assumes the rollback succeeds. A rollback failure is only logged.
- SQL exceptions raised by individual statements inside the verification, deduction and insert loops. Only the connection, the order insert, `executeBatch` and `commit` are modelled as statements that throw. A failure to connect leaves `conn` null, so no rollback runs and nothing is undone (src/service/OrderService.java:147). Every later failure is followed by the same rollback as a rejection.
- A failing order insert is modelled as failing before it draws an id from the sequence, so the sequence does not advance. PostgreSQL may already have drawn one when the insert fails.
- Schema constraints such as foreign keys from `order_items` to `orders` and `products`. The model writes the rows the code submits, including rows with order id `-1` when the insert returned no row.
- SQL text, `CURRENT_TIMESTAMP` and the creation time of stored orders. An order's `createdAt` is kept only as an uninterpreted optional value.
- Overflow in the stock subtraction. It runs in SQL, so PostgreSQL raises an "integer out of range" error inside the deduction loop, and the transaction is rolled back. The model has unbounded integers and no per-statement faults in that loop.
- Java `int` overflow in `getTotalQuantity`. Integers are unbounded.
- Null references. `setItems(null)` or a null element of the list throws a `NullPointerException` in the verification loop (src/service/OrderService.java:77-78), after the order row is inserted; it is caught at line 145 and rolled back. A `seq<OrderItem>` cannot hold null.
- The race between concurrent calls that both pass verification before either deducts. It depends on database isolation; the model is sequential.
- `getProduct` and `displayCurrentStock`: a single read and formatted printing.
- The getters of `Order` and `OrderItem`: they are field selectors of the datatypes.
- Object identity. `Order` and `OrderItem` are values, so shared lists and shared item objects are not modelled. `setItems` keeps the caller's list itself, and later changes to that list show up in the order (src/model/Order.java:64-66). `getItems` hands out the live list (src/model/Order.java:60-62). An `OrderItem` placed in two orders is stamped for both when `createOrder` runs on one of them (src/service/OrderService.java:123); the model returns only the order passed in.
- `Product`, `DatabaseConfig` and the demo's console narration. `Product` is replaced by the stock table; the demo's quantities appear as the `Scenarios` lemmas.
- `getTotalItems` and `getTotalQuantity` carry no contract of their own. They are the list length and the quantity sum, and their meaning is stated through `AddItem`, `AddAllAppends`, `SetItems` and `QtySumAppend`.
