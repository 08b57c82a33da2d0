# Sistema de Órdenes — a verified model of the stock and order core

Sistema de Órdenes is a small browser application for a shop. It keeps a
product catalog with stock levels. It turns a shopping cart into orders that
debit the stock, and it lets an order be cancelled, which credits the stock
back. Debits that leave a product empty or low raise alerts on a
notification bus. The repository holds two copies of the system: a newer
tree under `src/` and an older one under `Sistema-de-Ordenes/src/`. They
differ in a few rules, and both are modelled.

The model is written in Dafny, one module per part of the core:

- `Base` (base.dfy): shared values.
  - `Result`/`Outcome` stand for the errors the source throws.
  - `Without` is `filter(l => l !== x)`.
  - `Broadcast` is `forEach` over listeners.
- `Stock` (product.dfy) and `LegacyStock` (product_legacy.dfy): the product
  entity.
  - It is a class with the guarded `decreaseStock` and `increaseStock` and
    the `isOut`/`isLow` thresholds.
  - It is specified by the value functions `Debit`, `Credit`, `OutOfStock`
    and `LowStock`, and by `FromJson` for `Product.fromJSON`.
- `Orders` (order.dfy): the order entity, with the `calculateTotal` fold, the
  `total` getter, the one-way `cancel` and `fromJSON`.
- `Notifications` (notifications.dfy) and `LegacyNotifications`
  (notifications_legacy.dfy): the notification bus.
  - Per-kind listener lists.
  - A most-recent-first log in browser storage, modelled as the field
    `storage`.
  - `emit`, `markAsRead`, `on` and `off`.
- `Batch` (batch.dfy): the two stock passes the inventory coordinator runs,
  as folds over the lines.
  - The debit pass of `updateStockBatch` stops at the first failing line and
    raises at most one alert per line.
  - The credit pass of `restoreStockBatch` skips unknown products.
  - Each pass is also given in closed form, product by product (`Debited`,
    `Credited`), and proved equal to its fold.
- `Inventory` (inventory.dfy) and `LegacyInventory` (inventory_legacy.dfy):
  the inventory coordinator.
  - It is a class whose `catalog` field is the product repository.
  - The two batch passes, `updateStockBatch` and `restoreStockBatch`, load
    fresh `Product` objects, update them in place in a loop, save once, and
    then republish the catalog to its listeners.
  - `createProduct` appends one product and `updateProduct` replaces one
    entry by id; neither has a loop. Each saves and republishes the same way.
  - Each operation is proved against the `Batch` functions.
- `OrderLifecycle` (order_service.dfy): `createOrder`, `cancelOrder` and the
  order repository.
  - The repository is the field `orders`.
  - It is written by `Upsert`: a `put` on a store keyed by the order id.
- `Cart` (cart.dfy): the cart updaters of the two `useOrder` hooks, as pure
  functions on the cart, and the hook as a class.

Listeners are opaque ids. A call of a listener is an entry appended to a
ghost log named `deliveries`, so every contract can say who was called, with
what, and in which order.

Prices and quantities are integers; prices are in the smallest currency
unit.

The browser supplies order and product ids (`crypto.randomUUID()`) and
creation times (`new Date()`); in the model these are parameters. Each
notification's UUID is instead the bus's counter `nextId`. A bus built over a
log saved by an earlier session starts its counter above every saved id, and
every operation keeps every stored id below the counter, so a new event never
takes the id of a stored one.

## Model

| member | source | states |
|---|---|---|
| Stock.DebitGuards | src/core/domain/Product.ts:27-34 | a debit succeeds iff 0 < quantity ≤ stock; a non-positive quantity gives InvalidQuantity, an overdraft InsufficientStock(name); a success lowers the stock by exactly the quantity, changes no other field and leaves the stock non-negative |
| Stock.CreditGuards | src/core/domain/Product.ts:41-44 | a credit succeeds iff the quantity is positive, fails with InvalidQuantity otherwise, and on success adds exactly the quantity and changes nothing else |
| Stock.DebitThenCredit | src/core/domain/Product.ts:27-44 | an accepted debit followed by a credit of the same quantity restores the product exactly |
| Stock.AlertLevelsPartition | src/core/domain/Product.ts:50-60 | isOut iff stock = 0, isLow iff 0 < stock ≤ minStock; the two never hold together, and a non-negative stock is out, low or above the threshold |
| Stock.FromJson | src/core/domain/Product.ts:66-74 | id, name, price and minStock are copied; the stock is `_stock` when present and otherwise `stock` |
| Stock.JsonRoundTrip | src/infrastructure/repositories/IndexedDBInventoryRepository.ts:44-55 | the row the repository writes reads back, through fromJSON, as the same product |
| Stock.Product.constructor | src/core/domain/Product.ts:6-12 | the new product holds exactly the given fields |
| Stock.Product.FromJSON | src/core/domain/Product.ts:66-74 | the product built from a row is `FromJson(row)` |
| Stock.Product.DecreaseStock | src/core/domain/Product.ts:27-34 | refused (InvalidQuantity or InsufficientStock) exactly when `Debit` refuses, leaving the stock unchanged; otherwise the new state is the debited record; a non-negative stock stays non-negative; id, name, price and minStock are constants |
| Stock.Product.IncreaseStock | src/core/domain/Product.ts:41-44 | refused with InvalidQuantity for a non-positive quantity, stock unchanged; otherwise the new state is the credited record |
| Stock.Product.IsOut | src/core/domain/Product.ts:50-52 | holds iff the product's record is out of stock |
| Stock.Product.IsLow | src/core/domain/Product.ts:58-60 | holds iff the record is low on stock, and then the product is not out |
| LegacyStock.UncheckedCreditCanGoNegative | Sistema-de-Ordenes/src/core/domain/Product.ts:23-25 | the unguarded credit of a negative quantity lowers the stock and can make it negative, where the newer credit refuses the call |
| LegacyStock.UncheckedCreditAgrees | Sistema-de-Ordenes/src/core/domain/Product.ts:16-25 | for a positive quantity the older credit equals the newer one; an accepted debit followed by the older credit of the same quantity restores the product |
| LegacyStock.LegacyProduct.constructor | Sistema-de-Ordenes/src/core/domain/Product.ts:2-8 | the new product holds exactly the given fields |
| LegacyStock.LegacyProduct.DecreaseStock | Sistema-de-Ordenes/src/core/domain/Product.ts:16-21 | the same guarded debit as the newer entity: refused exactly when `Debit` refuses and with its error, the product unchanged on refusal, and on success the product becomes `Debit`'s result, never driven negative |
| LegacyStock.LegacyProduct.IncreaseStock | Sistema-de-Ordenes/src/core/domain/Product.ts:23-25 | never refuses; the stock becomes old stock + quantity for every quantity |
| LegacyStock.LegacyProduct.IsOut | Sistema-de-Ordenes/src/core/domain/Product.ts:28-30 | holds iff the stock is 0 |
| LegacyStock.LegacyProduct.IsLow | Sistema-de-Ordenes/src/core/domain/Product.ts:32-34 | holds iff 0 < stock ≤ minStock, and then it is not out |
| Orders.LineSumConcat | src/core/domain/Order.ts:27-29 | the sum of price × quantity is additive over concatenation |
| Orders.TotalIsLineSum | src/core/domain/Order.ts:27-29 | the left fold `calculateTotal` equals the sum of price × quantity over the items, and is 0 on no items |
| Orders.TotalAppend | src/core/domain/Order.ts:27-29 | the total of `xs + [i]` is the total of `xs` plus i.price × i.quantity; totals add over concatenation |
| Orders.Order.constructor | src/core/domain/Order.ts:14-20 | the new order holds the given fields, with status `completed` when none is given |
| Orders.Order.FromJSON | src/core/domain/Order.ts:55-63 | the rebuilt order keeps id, clientId, items, status and createdAt |
| Orders.Order.Total | src/core/domain/Order.ts:35-37 | the getter equals the sum of price × quantity over the order's items |
| Orders.Order.Cancel | src/core/domain/Order.ts:43-48 | refused with AlreadyCancelled iff the order was already cancelled; afterwards the status is `cancelled` either way; the other fields are unchanged (they are constants in the model) |
| Notifications.MarkReadEffect | src/infrastructure/websocket/NotificationService.ts:43-49 | marking sets `read` on every entry with that id, keeps every other entry, the length, the order and all other fields |
| Notifications.MarkReadIdempotent | src/infrastructure/websocket/NotificationService.ts:43-49 | marking twice equals marking once; marking an absent id changes nothing |
| Notifications.LoggedMostRecentFirst | src/infrastructure/websocket/NotificationService.ts:32-37 | after a run of emits the log is the events newest first followed by the old log untouched |
| Notifications.LoggedConcat | src/infrastructure/websocket/NotificationService.ts:32-37 | logging two runs of events one after the other is logging them as one run |
| Notifications.DispatchConcat | src/infrastructure/websocket/NotificationService.ts:120-123 | the listener calls of two runs of emits are those of one run |
| Notifications.DispatchByKind | src/infrastructure/websocket/NotificationService.ts:120-123 | every listener call made by a run of emits carries one of the events and goes to a listener registered for that event's kind |
| Notifications.IdBound | src/infrastructure/websocket/NotificationService.ts:110 | the least number above every id in a log: every id is below it, and no smaller bound has that property |
| Notifications.NotificationService.constructor | src/infrastructure/websocket/NotificationService.ts:26 | a new bus has no listeners, and has emitted and delivered nothing; its counter starts at `IdBound` of the stored history, so every stored id is below it |
| Notifications.NotificationService.GetHistory | src/infrastructure/websocket/NotificationService.ts:56-70 | the stored entries; empty when nothing is stored or the stored text does not parse |
| Notifications.NotificationService.SaveToStorage | src/infrastructure/websocket/NotificationService.ts:32-37 | the stored log becomes the notification followed by the previous history; a notification whose id is below the counter keeps every stored id below it |
| Notifications.NotificationService.MarkAsRead | src/infrastructure/websocket/NotificationService.ts:43-49 | the stored log becomes `MarkRead` of the previous history, and every stored id stays below the counter |
| Notifications.NotificationService.On | src/infrastructure/websocket/NotificationService.ts:77-82 | the callback is appended to its kind's list, created when absent; other kinds are untouched |
| Notifications.NotificationService.Off | src/infrastructure/websocket/NotificationService.ts:89-97 | every copy of the callback leaves its kind's list, the rest keep their order, other kinds are untouched; a kind without a list is left alone |
| Notifications.NotificationService.Emit | src/infrastructure/websocket/NotificationService.ts:105-124 | one unread event with the counter's id (which no stored event has while every stored id is below the counter, and that stays so), the given kind, message and product and the current time is prepended to the log, and exactly the listeners of that kind receive it, in registration order |
| Notifications.EmitAfterReload | src/infrastructure/websocket/NotificationService.ts:105-124 | a bus built over a saved log and emitting once stores the new event in front of the saved log, with an id no saved event has |
| LegacyNotifications.LegacyNotificationService.constructor | Sistema-de-Ordenes/src/infrastructure/websocket/NotificationService.ts:20 | a new bus has no listeners and has emitted nothing; over a readable log its counter starts at `IdBound` of the entries, so every stored id is below it |
| LegacyNotifications.LegacyNotificationService.GetHistory | Sistema-de-Ordenes/src/infrastructure/websocket/NotificationService.ts:35-42 | empty when nothing is stored; the entries when they parse; an UnreadableStorage error, exactly when the stored text does not parse |
| LegacyNotifications.LegacyNotificationService.SaveToStorage | Sistema-de-Ordenes/src/infrastructure/websocket/NotificationService.ts:22-26 | succeeds iff the log is readable, then prepends the notification; on failure the stored log is unchanged; a notification whose id is below the counter keeps every stored id below it |
| LegacyNotifications.LegacyNotificationService.MarkAsRead | Sistema-de-Ordenes/src/infrastructure/websocket/NotificationService.ts:29-33 | succeeds iff the log is readable, then stores `MarkRead` of it; otherwise nothing changes; every stored id stays below the counter |
| LegacyNotifications.LegacyNotificationService.On | Sistema-de-Ordenes/src/infrastructure/websocket/NotificationService.ts:44-49 | appends the callback to its kind's list, creating the list when absent |
| LegacyNotifications.LegacyNotificationService.Off | Sistema-de-Ordenes/src/infrastructure/websocket/NotificationService.ts:51-56 | removes every copy of the callback from that kind only |
| LegacyNotifications.LegacyNotificationService.Emit | Sistema-de-Ordenes/src/infrastructure/websocket/NotificationService.ts:60-77 | on a readable log: one unread event with the given kind, message and product is prepended and that kind's listeners receive it in order; on an unreadable log the call fails before any listener runs and the log is unchanged; while every readable stored id is below the counter, the new id is one no stored event has, and that stays so |
| Base.WithoutMembership | src/core/services/InventoryService.ts:28-30 | unsubscribing removes every copy of the listener and keeps every other listener, with its multiplicity |
| Base.WithoutConcat | src/core/services/InventoryService.ts:28-30 | the filter distributes over concatenation, so the remaining listeners keep their order |
| Base.WithoutAbsent | src/core/services/InventoryService.ts:28-30 | removing a listener that is not subscribed changes nothing |
| Base.BroadcastReachesEach | src/core/services/InventoryService.ts:38 | a broadcast calls each listener once, in registration order, with the same payload |
| Batch.FindIndexFirst | src/core/services/InventoryService.ts:83 | the position `find` returns for an entry's own id is that entry's exactly when no earlier entry shares its id |
| Batch.AlertPolicy | src/core/services/InventoryService.ts:88-98 | after a debit: an "AGOTADO" out-of-stock alert at stock 0, else one low-stock alert when 0 < stock ≤ minStock, else none; the alert names the debited product |
| Batch.StampedEvents | src/infrastructure/websocket/NotificationService.ts:109-116 | each alert of a batch becomes one unread event with its kind, message and product and a counter id, and the ids are distinct |
| Batch.DebitLineStep | src/core/services/InventoryService.ts:83-98 | one more line keeps the closed form: the fold over `lines + [line]` succeeds iff the whole batch is acceptable, and then gives `Debited` of it |
| Batch.DebitRunSpec | src/core/services/InventoryService.ts:80-101 | the debit pass succeeds iff every line names a known product with a positive quantity and no product is asked for more than it holds, duplicates accumulating; then each product loses the sum of its lines and every other entry, the length and the order are unchanged |
| Batch.BadLineFailsBatch | src/core/services/InventoryService.ts:83-86 | a line with an unknown product or a non-positive quantity fails the whole batch, wherever it stands |
| Batch.DebitKeepsStockNonNegative | src/core/services/InventoryService.ts:82-99 | a successful batch never takes a product below zero |
| Batch.DebitRunPrefix | src/core/services/InventoryService.ts:82-99 | at most one alert per line; the alerts of a prefix are a prefix of the batch's alerts, so alerts of earlier lines stand when a later line fails; after a failing prefix nothing further changes |
| Batch.CreditRunSpec | src/core/services/InventoryService.ts:112-121 | the credit pass fails (InvalidQuantity) iff some line for a known product has a non-positive quantity; otherwise each known product gains the sum of its lines and unknown products are skipped |
| Batch.CreditRunPrefix | src/core/services/InventoryService.ts:114-119 | after a failing prefix of the credit pass nothing further changes |
| Batch.DebitThenCreditRestores | src/core/services/InventoryService.ts:77-123 | crediting back the lines of a successful debit pass restores the catalog exactly |
| Inventory.UpdateEntryEffect | src/core/services/InventoryService.ts:133-147 | a missing id fails with UnknownProduct; otherwise only the first entry with that id takes the new name, price, stock and minStock under its old id; every other entry, the length and the order stay |
| Inventory.InventoryService.constructor | src/core/services/InventoryService.ts:13-18 | the coordinator starts with the given catalog and bus and no listeners |
| Inventory.InventoryService.Subscribe | src/core/services/InventoryService.ts:26-27 | the listener is appended |
| Inventory.InventoryService.Unsubscribe | src/core/services/InventoryService.ts:28-30 | every copy of the listener is removed; the others keep their order |
| Inventory.InventoryService.GetAllProducts | src/infrastructure/repositories/IndexedDBInventoryRepository.ts:15-31 | fresh, pairwise distinct product objects whose states are exactly the stored catalog |
| Inventory.InventoryService.SaveProducts | src/infrastructure/repositories/IndexedDBInventoryRepository.ts:38-60 | the stored catalog is replaced by the products' states, in order |
| Inventory.InventoryService.NotifyChanges | src/core/services/InventoryService.ts:36-39 | every listener, in order, receives the stored catalog |
| Inventory.InventoryService.CreateProduct | src/core/services/InventoryService.ts:52-70 | exactly one product is appended to the stored catalog, and the listeners receive the new catalog |
| Inventory.InventoryService.UpdateStockBatch | src/core/services/InventoryService.ts:77-103 | succeeds iff `DebitRun` of the stored catalog succeeds; on failure the catalog is unchanged and no catalog listener is called; on success the catalog is the debited one and listeners receive it; in both cases the bus has emitted the pass's alerts in order, with consecutive ids, prepended to its log and delivered by kind |
| Inventory.InventoryService.DebitPass | src/core/services/InventoryService.ts:82-99 | the loop over the loaded products: it fails exactly when `DebitRun` of what was loaded fails, with the same error; otherwise the products end as the debited catalog; either way the bus has emitted the alerts of the lines that ran, in order |
| Inventory.InventoryService.DebitItem | src/core/services/InventoryService.ts:83-86 | the lookup and `decreaseStock` of one line: refused exactly when `DebitLine` refuses it, with its error and no alert; otherwise the products become `DebitLine`'s catalog and the alert due is the one for the product at the returned position |
| Inventory.InventoryService.ApplyLine | src/core/services/InventoryService.ts:83-98 | one loop iteration: the loaded products change as `DebitLine` says and that line's alert, if any, is emitted |
| Inventory.InventoryService.RaiseAlert | src/core/services/InventoryService.ts:88-98 | the alert `AlertsOf` gives for the debited product is emitted, and nothing else |
| Inventory.InventoryService.Announce | src/core/services/InventoryService.ts:89-92 | one alert is emitted on the bus: logged, counted and delivered to its kind's listeners |
| Inventory.InventoryService.RestoreStockBatch | src/core/services/InventoryService.ts:109-123 | succeeds iff `CreditRun` of the stored catalog succeeds; on failure nothing is saved or published; on success the catalog is the credited one and the listeners receive it |
| Inventory.InventoryService.CreditPass | src/core/services/InventoryService.ts:114-119 | the loop over the loaded products: it fails exactly when `CreditRun` of what was loaded fails, with the same error; otherwise the products end as the credited catalog |
| Inventory.InventoryService.CreditItem | src/core/services/InventoryService.ts:115-118 | one loop iteration: the loaded products change as `CreditLine` says |
| Inventory.InventoryService.UpdateProduct | src/core/services/InventoryService.ts:129-151 | follows `UpdateEntry`: a missing id fails with UnknownProduct and changes nothing; otherwise the catalog is the updated one and listeners receive it |
| LegacyInventory.UncheckedCreditLineStep | Sistema-de-Ordenes/src/core/services/InventoryService.ts:91-95 | one more line of the older credit pass keeps its closed form |
| LegacyInventory.UncheckedCreditRunSpec | Sistema-de-Ordenes/src/core/services/InventoryService.ts:87-101 | the older credit pass adds each line's quantity, whatever its sign, to the known product it names, skips unknown products, and never fails |
| LegacyInventory.UncheckedCreditRunAgrees | Sistema-de-Ordenes/src/core/services/InventoryService.ts:90-96 | where the newer credit pass succeeds the older one gives the same catalog; after a successful debit pass it restores the catalog exactly |
| LegacyInventory.LegacyDebitRunReadable | Sistema-de-Ordenes/src/core/services/InventoryService.ts:53-85 | with a readable notification log the older debit pass is the newer one |
| LegacyInventory.LegacyDebitRunUnreadable | Sistema-de-Ordenes/src/core/services/InventoryService.ts:57-78 | with an unreadable log no alert goes out, and the pass fails with UnreadableStorage exactly when the newer pass would raise an alert |
| LegacyInventory.LegacyDebitRunPrefix | Sistema-de-Ordenes/src/core/services/InventoryService.ts:57-78 | once a prefix of the older debit pass fails, the rest changes nothing |
| LegacyInventory.LegacyInventoryService.constructor | Sistema-de-Ordenes/src/core/services/InventoryService.ts:8-13 | the coordinator starts with the given catalog and bus and no listeners |
| LegacyInventory.LegacyInventoryService.Subscribe | Sistema-de-Ordenes/src/core/services/InventoryService.ts:16-17 | the listener is appended |
| LegacyInventory.LegacyInventoryService.Unsubscribe | Sistema-de-Ordenes/src/core/services/InventoryService.ts:18-20 | every copy of the listener is removed; the others keep their order |
| LegacyInventory.LegacyInventoryService.GetAllProducts | Sistema-de-Ordenes/src/infrastructure/repositories/IndexedDBInventoryRepository.ts:8-30 | fresh, pairwise distinct older products whose states are exactly the stored catalog |
| LegacyInventory.LegacyInventoryService.SaveProducts | Sistema-de-Ordenes/src/infrastructure/repositories/IndexedDBInventoryRepository.ts:32-57 | the stored catalog is replaced by the products' states, in order |
| LegacyInventory.LegacyInventoryService.NotifyChanges | Sistema-de-Ordenes/src/core/services/InventoryService.ts:23-26 | every remaining listener, in order, receives the stored catalog |
| LegacyInventory.LegacyInventoryService.CreateProduct | Sistema-de-Ordenes/src/core/services/InventoryService.ts:34-50 | the old catalog is saved with exactly one new product appended at the end, and the listeners receive it |
| LegacyInventory.LegacyInventoryService.UpdateStockBatch | Sistema-de-Ordenes/src/core/services/InventoryService.ts:53-85 | follows `LegacyDebitRun` of the stored catalog for the bus's storage state: on failure the catalog is unchanged and no catalog listener runs; on success the debited catalog is saved and published; the alerts it emitted are logged and delivered by kind |
| LegacyInventory.LegacyInventoryService.DebitPass | Sistema-de-Ordenes/src/core/services/InventoryService.ts:57-78 | the loop follows `LegacyDebitRun` of what was loaded for the bus's storage state: same verdict and error, the debited catalog on success, and the emitted alerts logged and delivered; an unreadable log costs exactly one consumed id |
| LegacyInventory.LegacyInventoryService.DebitItem | Sistema-de-Ordenes/src/core/services/InventoryService.ts:58-62 | one line's lookup and `decreaseStock`: refused exactly when `DebitLine` refuses it, never for an unreadable log, and with no alert; otherwise the products become `DebitLine`'s catalog and the alert due is the one for the product at the returned position |
| LegacyInventory.LegacyInventoryService.ApplyLine | Sistema-de-Ordenes/src/core/services/InventoryService.ts:58-77 | one iteration follows `LegacyDebitStep` |
| LegacyInventory.LegacyInventoryService.RaiseAlert | Sistema-de-Ordenes/src/core/services/InventoryService.ts:65-77 | the product's alert is emitted, or the emit fails on an unreadable log |
| LegacyInventory.LegacyInventoryService.Announce | Sistema-de-Ordenes/src/core/services/InventoryService.ts:66-70 | one alert is emitted when the log is readable; otherwise the call fails and nothing is logged or delivered |
| LegacyInventory.LegacyInventoryService.RestoreStockBatch | Sistema-de-Ordenes/src/core/services/InventoryService.ts:87-101 | never fails: the saved catalog is `UncheckedCreditRun` of the stored one, and the listeners receive it |
| LegacyInventory.LegacyInventoryService.CreditPass | Sistema-de-Ordenes/src/core/services/InventoryService.ts:90-96 | the loop never fails: the products end as `UncheckedCreditRun` of what was loaded |
| LegacyInventory.LegacyInventoryService.CreditItem | Sistema-de-Ordenes/src/core/services/InventoryService.ts:91-95 | one iteration follows `UncheckedCreditLine` |
| OrderLifecycle.UpsertLookup | src/infrastructure/repositories/IndexedDBOrderRepository.ts:6-17 | after a put, the written id reads back the written order and every other id reads as before; one order per id is kept; the store grows by one exactly when the id was new |
| OrderLifecycle.OrderService.constructor | src/core/services/OrderService.ts:14-20 | the service starts with the given coordinator and orders, and no listeners |
| OrderLifecycle.OrderService.Subscribe | src/core/services/OrderService.ts:23-24 | the listener is appended |
| OrderLifecycle.OrderService.Unsubscribe | src/core/services/OrderService.ts:25-27 | every copy of the listener is removed |
| OrderLifecycle.OrderService.NotifyChanges | src/core/services/OrderService.ts:30-32 | each listener is called once, in order |
| OrderLifecycle.OrderService.GetHistory | src/core/services/OrderService.ts:81-83 | the stored orders |
| OrderLifecycle.OrderService.CreateOrder | src/core/services/OrderService.ts:35-55 | an empty cart fails with EmptyCart and changes no stock, order, listener or alert; otherwise it succeeds iff the debit pass does; on failure no order is saved and neither the catalog nor any order or catalog listener is touched; on success a fresh order with the given client and items and status `completed` is saved and returned, the catalog is debited, each order listener is called once and the catalog listeners receive the new catalog; either way the bus has emitted the alerts of the lines the pass ran |
| OrderLifecycle.OrderService.CancelOrder | src/core/services/OrderService.ts:57-78 | an unknown id fails with OrderNotFound, a cancelled order with AlreadyCancelled, both without touching stock; otherwise it succeeds iff the credit pass does, and then every item is credited, the catalog listeners receive the credited catalog, the order is saved with status `cancelled` and each order listener is called once; a failure changes no stock and calls no order or catalog listener |
| OrderLifecycle.CreateThenCancel | src/core/services/OrderService.ts:35-78 | creating an order and then cancelling it succeeds, returns the catalog to its pre-create state, and leaves the order stored as cancelled |
| OrderLifecycle.CancelTwice | src/core/services/OrderService.ts:57-78 | after a successful cancel the order is stored as cancelled and the stock credited once; a second cancel of the same id is refused with AlreadyCancelled |
| Cart.AddedToCartEffect | src/presentation/hooks/useOrder.ts:21-44 | a request beyond the stock leaves the cart unchanged; an existing line grows by the quantity, other lines, length, order, products and prices unchanged; a new product is appended with its price; the older hook's updater (Sistema-de-Ordenes/src/presentation/hooks/useOrder.ts, lines 13-34) is written identically |
| Cart.AddedToCartQuantities | src/presentation/hooks/useOrder.ts:23-42 | per product, an accepted add raises that product's quantity by the amount and leaves the others; the added product ends within its stock; one line per product is preserved |
| Cart.QuantityDecreasedLines | src/presentation/hooks/useOrder.ts:50-61 | every remaining line has a positive quantity and comes from a line of the old cart with the same product and price; one line per product is preserved |
| Cart.QuantityDecreasedReference | src/presentation/hooks/useOrder.ts:50-61 | on a cart of distinct positive lines: an absent product changes nothing, a line above 1 loses one unit in place, a line at 1 is removed and the rest close up in order; the older hook's updater (lines 37-44 of its useOrder.ts) is the same |
| Cart.RemovedFromCartEffect | src/presentation/hooks/useOrder.ts:67-69 | a line stays iff it was there and is for another product; none is left for that product; the filter distributes over concatenation, so order is kept; an absent product changes nothing; the older hook's `removeItem` and `removeFromCart` (lines 47-49 and 67-69 of its useOrder.ts) are the same filter |
| Cart.CartHook.constructor | src/presentation/hooks/useOrder.ts:13 | the cart starts empty |
| Cart.CartHook.AddToCart | src/presentation/hooks/useOrder.ts:21-44 | the cart becomes `AddedToCart` of the old cart and the product's current state |
| Cart.CartHook.DecreaseQuantity | src/presentation/hooks/useOrder.ts:50-61 | the cart becomes `QuantityDecreased` of the old cart |
| Cart.CartHook.RemoveFromCart | src/presentation/hooks/useOrder.ts:67-69 | the cart becomes `RemovedFromCart` of the old cart |
| Cart.CartHook.Checkout | src/presentation/hooks/useOrder.ts:76-86 | returns true iff `createOrder` succeeds on the cart, and then the cart is empty, the completed order is stored, the catalog is the debited catalog and both listener lists are called; on false the cart, orders, catalog and deliveries are unchanged; either way the alerts of the lines reached are emitted |
| Cart.CartHook.Total | src/presentation/hooks/useOrder.ts:88-90 | the cart total is the sum of price × quantity over its lines, 0 for an empty cart |

## Left out

- Browser I/O is not modelled: IndexedDB transactions, `localStorage` and `JSON.stringify`/`JSON.parse`.
  - The product repository is a sequence replaced wholesale on save.
  - The order repository is a sequence updated by id.
  - The notification log is a `StoredLog` value, which is missing, unparsable or a list of entries.
  - The stored log's date rehydration (`new Date(n.timestamp)`) is left out; timestamps are integers.
- Reading orders back does not model the loss of the `Order` prototype. `getOrders` returns plain objects without `Order.fromJSON` (src/infrastructure/repositories/IndexedDBOrderRepository.ts:26).
  - So at run time `order.cancel()` at src/core/services/OrderService.ts:70 finds no method and throws, after line 67 has already credited the stock back.
  - As written, the order therefore stays `completed` in the store, and every retried cancel of it credits its stock back again.
  - The model rebuilds the order with `FromJSON` before cancelling it, which is the behaviour the code evidently intends. The stored order then reads as cancelled, and a retry is refused (`CancelTwice`).
- IndexedDB returns `getAll()` in key order. The model keeps orders in write order, and keeps products in the order they were saved.
  - Because `put` overwrites by key, a catalog saved with two products sharing an id would collapse to one.
  - The model keeps both, and all lookups use the first match, as `find` does.
- `async`/`await` is modelled as sequential steps. Interleaving of concurrent operations is not modelled.
- Prices and quantities are integers. JavaScript numbers are floating point.
- Listeners are ids, and a call is a ghost log entry. A listener that throws, and so stops the `forEach`, is not modelled.
- The clock and UUIDs are parameters, as described above.
  - A whole batch of alerts carries one timestamp `now`; each `new Date()` in the source may differ by milliseconds.
  - Notification ids come from the counter `nextId` rather than from `crypto.randomUUID()`. The counter starts above every id of the saved log; a saved log that changes behind the bus's back is not modelled.
- `Stock.FromJson` requires a row to carry `_stock` or `stock`. A row with neither would give a product with an undefined stock; such rows are not represented.
- Stock.Product: `name` and `price` are modelled as constants. They are public and writable in the source, but no modelled code writes them. `updateProduct` builds a new `Product` instead.
- Alerts are raised per batch line, as the loop does. Two lines for the same product can therefore raise two alerts in one batch.
- Orders.Order: `id`, `clientId`, `items` and `createdAt` are modelled as constants. They are public and writable in the source, but no modelled code writes them; only `status` changes, through `cancel`.
- Orders.Order.FromJSON: a stored record always carries every field. In the source, `fromJSON` passes `status` and `createdAt` into the constructor's defaulted parameters, so a row without `status` reads as `completed` and one without `createdAt` gets the current time. `OrderRecord` cannot represent a missing field, so those rows are not modelled.
- The order's `pending` status exists only as a value. No modelled code creates a pending order.
- The older `useOrder` hook computes `total` with the older tree's order service. That service (Sistema-de-Ordenes/src/core/services/OrderService.ts) is not part of this model, so the older `total` and the service behind the older `checkout` are not modelled. The older hook's updaters are the same members as the newer ones.
- `Client`, `ClientService`, the React components and hooks other than the cart updaters, the composition root and `LocalStorageOrderRepository` are not part of this model.
- Toast messages and `console` output are left out.
- The `quantity = 1` default of `addToCart` is not modelled; callers pass the quantity.
