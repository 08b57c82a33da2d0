/** The order lifecycle of the newer tree (src/core/services/OrderService.ts):
    creating an order debits the stock through the inventory coordinator and
    then stores a completed order; cancelling one credits the stock back and
    stores it cancelled. The order repository is the field `orders`, written
    with `put` on a store keyed by the order id. */
module OrderLifecycle {
  import opened Base
  import opened Stock
  import opened Orders
  import opened Notifications
  import opened Batch
  import opened Inventory

  /** The batch lines of an order's items: `{ productId, quantity }`; the
      price plays no part in the stock passes. */
  function Lines(items: seq<OrderItem>): (r: seq<StockLine>)
    ensures |r| == |items|
    ensures forall i :: 0 <= i < |items| ==> r[i] == StockLine(items[i].productId, items[i].quantity)
  {
    seq(|items|, i requires 0 <= i < |items| => StockLine(items[i].productId, items[i].quantity))
  }

  function OrderIds(orders: seq<OrderRecord>): (ids: seq<string>)
    ensures |ids| == |orders| && forall k :: 0 <= k < |orders| ==> ids[k] == orders[k].id
  {
    seq(|orders|, k requires 0 <= k < |orders| => orders[k].id)
  }

  /** The first stored order with the id, if any. */
  function Lookup(orders: seq<OrderRecord>, id: string): Option<OrderRecord>
  {
    match FindIndex(OrderIds(orders), id)
    case None => None
    case Some(k) => Some(orders[k])
  }

  /** `store.put(order)` on a store keyed by id: the order with the same id
      is overwritten where it stands, or the order is added. */
  function Upsert(orders: seq<OrderRecord>, o: OrderRecord): seq<OrderRecord>
  {
    match FindIndex(OrderIds(orders), o.id)
    case None => orders + [o]
    case Some(k) => orders[k := o]
  }

  /** The store's key constraint: one order per id. */
  predicate UniqueIds(orders: seq<OrderRecord>)
  {
    forall i, j :: 0 <= i < j < |orders| ==> orders[i].id != orders[j].id
  }

  /** A put behaves as a keyed store: reading the written id gives the
      written order, reading any other id gives what it gave before, and the
      store keeps one order per id. */
  lemma {:induction false} UpsertLookup(orders: seq<OrderRecord>, o: OrderRecord, id: string)
    ensures Lookup(Upsert(orders, o), id) == if id == o.id then Some(o) else Lookup(orders, id)
    ensures UniqueIds(orders) ==> UniqueIds(Upsert(orders, o))
    ensures |Upsert(orders, o)| == if Lookup(orders, o.id).None? then |orders| + 1 else |orders|
  {
    var ids := OrderIds(orders);
    var after := Upsert(orders, o);
    var idsAfter := OrderIds(after);
    match FindIndex(ids, o.id)
    case None =>
      assert idsAfter == ids + [o.id];
      if id != o.id {
        FindIndexSnoc(ids, o.id, id);
      }
    case Some(k) =>
      assert idsAfter == ids;
  }

  class OrderService {
    const inventory: InventoryService
    /** What the order repository holds. */
    var orders: seq<OrderRecord>
    var listeners: seq<ListenerId>
    /** Every call of an order listener, in order; they take no argument. */
    ghost var deliveries: seq<ListenerId>

    constructor(inventory: InventoryService, orders: seq<OrderRecord>)
      ensures this.inventory == inventory && this.orders == orders
      ensures listeners == [] && deliveries == []
    {
      this.inventory := inventory;
      this.orders := orders;
      listeners := [];
      deliveries := [];
    }

    method Subscribe(listener: ListenerId)
      modifies this`listeners
      ensures listeners == old(listeners) + [listener]
    {
      listeners := listeners + [listener];
    }

    method Unsubscribe(listener: ListenerId)
      modifies this`listeners
      ensures listeners == Without(old(listeners), listener)
      ensures listener !in listeners
    {
      listeners := Without(listeners, listener);
      WithoutMembership(old(listeners), listener);
    }

    /** `notifyChanges()`: each listener once, in subscription order. */
    method NotifyChanges()
      modifies this`deliveries
      ensures deliveries == old(deliveries) + listeners
    {
      var i := 0;
      while i < |listeners|
        invariant 0 <= i <= |listeners|
        invariant deliveries == old(deliveries) + listeners[..i]
        modifies this`deliveries
      {
        deliveries := deliveries + [listeners[i]];
        i := i + 1;
      }
      assert listeners[..i] == listeners;
    }

    /** `getHistory()`: the stored orders. */
    method GetHistory() returns (h: seq<OrderRecord>)
      ensures h == orders
    {
      h := orders;
    }

    /** `createOrder(clientId, items)`: an empty cart is refused before
        anything happens; a refused debit pass stores no order and calls no
        listener; otherwise a completed order with the given client and items
        is stored and returned, and the listeners are called once. The order
        id (`crypto.randomUUID()`), its creation time and the bus's clock are
        given by the caller. */
    method CreateOrder(clientId: string, items: seq<OrderItem>, orderId: string, createdAt: string, now: int)
        returns (r: Result<Order, Error>)
      modifies this`orders, this`deliveries, inventory`catalog, inventory`deliveries
      modifies inventory.notifier`storage, inventory.notifier`nextId, inventory.notifier`emitted, inventory.notifier`deliveries
      ensures items == [] ==>
        && r == Failure(EmptyCart)
        && orders == old(orders) && deliveries == old(deliveries)
        && inventory.catalog == old(inventory.catalog) && inventory.deliveries == old(inventory.deliveries)
      ensures items != [] ==>
        var run := DebitRun(old(inventory.catalog), Lines(items));
        && (r.Success? <==> run.result.Success?)
        && (r.Failure? ==>
              && r.error == run.result.error && orders == old(orders) && deliveries == old(deliveries)
              && inventory.catalog == old(inventory.catalog) && inventory.deliveries == old(inventory.deliveries))
        && (r.Success? ==>
              && fresh(r.value)
              && r.value.Record() == OrderRecord(orderId, clientId, items, Completed, createdAt)
              && orders == Upsert(old(orders), r.value.Record())
              && deliveries == old(deliveries) + listeners
              && inventory.catalog == run.result.value
              && inventory.deliveries == old(inventory.deliveries) + Broadcast(inventory.listeners, inventory.catalog))
      ensures inventory.Announced(old(inventory.notifier.emitted), old(inventory.notifier.nextId),
                                  old(inventory.notifier.GetHistory()), old(inventory.notifier.deliveries),
                                  if items == [] then [] else DebitRun(old(inventory.catalog), Lines(items)).alerts, now)
    {
      if items == [] {
        return Failure(EmptyCart);
      }
      var debited := inventory.UpdateStockBatch(Lines(items), now);
      if debited.Fail? {
        return Failure(debited.error);
      }
      var order := new Order(orderId, clientId, items, createdAt, Completed);
      orders := Upsert(orders, order.Record());
      NotifyChanges();
      r := Success(order);
    }

    /** `cancelOrder(orderId)`: an unknown or already cancelled order is
        refused before the stock is touched; otherwise the order's items are
        credited back, and only when that pass succeeds is the order stored
        as cancelled and are the listeners called once. */
    method CancelOrder(orderId: string) returns (r: Outcome<Error>)
      modifies this`orders, this`deliveries, inventory`catalog, inventory`deliveries
      ensures Lookup(old(orders), orderId).None? ==>
        && r == Fail(OrderNotFound) && orders == old(orders)
        && inventory.catalog == old(inventory.catalog) && inventory.deliveries == old(inventory.deliveries)
      ensures Lookup(old(orders), orderId).Some? && Lookup(old(orders), orderId).value.status == Cancelled ==>
        && r == Fail(AlreadyCancelled) && orders == old(orders)
        && inventory.catalog == old(inventory.catalog) && inventory.deliveries == old(inventory.deliveries)
      ensures Lookup(old(orders), orderId).Some? && Lookup(old(orders), orderId).value.status != Cancelled ==>
        var o := Lookup(old(orders), orderId).value;
        var run := CreditRun(old(inventory.catalog), Lines(o.items));
        && (r.Pass? <==> run.Success?)
        && (r.Fail? ==>
              && r.error == run.error && orders == old(orders)
              && inventory.catalog == old(inventory.catalog) && inventory.deliveries == old(inventory.deliveries))
        && (r.Pass? ==>
              && inventory.catalog == run.value
              && inventory.deliveries == old(inventory.deliveries) + Broadcast(inventory.listeners, inventory.catalog)
              && orders == Upsert(old(orders), o.(status := Cancelled))
              && deliveries == old(deliveries) + listeners)
      ensures r.Fail? ==> deliveries == old(deliveries)
    {
      var found := Lookup(orders, orderId);
      if found.None? {
        return Fail(OrderNotFound);
      }
      var stored := found.value;
      if stored.status == Cancelled {
        return Fail(AlreadyCancelled);
      }
      r := inventory.RestoreStockBatch(Lines(stored.items));
      if r.Fail? {
        return;
      }
      var order := new Order.FromJSON(stored);
      var cancelled := order.Cancel();
      orders := Upsert(orders, order.Record());
      NotifyChanges();
    }
  }

  /** Creating an order and then cancelling it gives the catalog back as it
      was: every product the order named still exists, since nothing else
      ran in between. */
  method CreateThenCancel(service: OrderService, clientId: string, items: seq<OrderItem>,
                          orderId: string, createdAt: string, now: int)
      returns (created: Result<Order, Error>, cancelled: Outcome<Error>)
    modifies service`orders, service`deliveries, service.inventory`catalog, service.inventory`deliveries
    modifies service.inventory.notifier`storage, service.inventory.notifier`nextId
    modifies service.inventory.notifier`emitted, service.inventory.notifier`deliveries
    ensures created.Success? ==>
      && cancelled == Pass
      && service.inventory.catalog == old(service.inventory.catalog)
      && Lookup(service.orders, orderId) == Some(created.value.Record().(status := Cancelled))
  {
    created := service.CreateOrder(clientId, items, orderId, createdAt, now);
    if created.Failure? {
      return created, Fail(created.error);
    }
    var record := created.value.Record();
    UpsertLookup(old(service.orders), record, orderId);
    DebitThenCreditRestores(old(service.inventory.catalog), Lines(items));
    ghost var placed := service.orders;
    cancelled := service.CancelOrder(orderId);
    UpsertLookup(placed, record.(status := Cancelled), orderId);
  }

  /** A cancelled order cannot be cancelled again: the second call is refused
      and the stock is credited once only. */
  method CancelTwice(service: OrderService, orderId: string) returns (first: Outcome<Error>, second: Outcome<Error>)
    modifies service`orders, service`deliveries, service.inventory`catalog, service.inventory`deliveries
    ensures first.Pass? ==> old(Lookup(service.orders, orderId)).Some?
    ensures first.Pass? ==>
      var o := old(Lookup(service.orders, orderId)).value;
      var run := CreditRun(old(service.inventory.catalog), Lines(o.items));
      && o.status != Cancelled
      && run.Success? && service.inventory.catalog == run.value
      && service.orders == Upsert(old(service.orders), o.(status := Cancelled))
      && second == Fail(AlreadyCancelled)
  {
    ghost var o := Lookup(service.orders, orderId);
    first := service.CancelOrder(orderId);
    if first.Fail? {
      second := first;
      return;
    }
    UpsertLookup(old(service.orders), o.value.(status := Cancelled), orderId);
    second := service.CancelOrder(orderId);
  }
}
