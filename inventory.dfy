/** The inventory coordinator of the newer tree
    (src/core/services/InventoryService.ts). The product repository is the
    field `catalog`, read in full by `getProducts` (which rebuilds fresh
    `Product` objects) and replaced in full by `saveProducts`. Every change
    loads the catalog, works on the loaded objects, saves once at the end and
    then republishes the catalog to the subscribed listeners. */
module Inventory {
  import opened Base
  import opened Stock
  import opened Notifications
  import opened Batch

  /** `{ name, price, stock, minStock }` as `updateProduct` receives it. */
  datatype ProductUpdate = ProductUpdate(name: string, price: int, stock: int, minStock: int)

  /** The catalog after `updateProduct(id, updates)`: the first product with
      that id is rebuilt from the updates under its own id. */
  function UpdateEntry(catalog: seq<ProductRecord>, id: string, u: ProductUpdate): Result<seq<ProductRecord>, Error>
  {
    match FindIndex(Ids(catalog), id)
    case None => Failure(UnknownProduct)
    case Some(k) => Success(catalog[k := ProductRecord(catalog[k].id, u.name, u.price, u.stock, u.minStock)])
  }

  /** An update of a missing id is refused; otherwise exactly the first entry
      with that id takes the new name, price, stock and threshold, keeps its
      id, and every other entry, the length and the order stay as they were. */
  lemma {:induction false} UpdateEntryEffect(catalog: seq<ProductRecord>, id: string, u: ProductUpdate)
    ensures UpdateEntry(catalog, id, u).Failure? <==> id !in Ids(catalog)
    ensures UpdateEntry(catalog, id, u).Failure? ==> UpdateEntry(catalog, id, u).error == UnknownProduct
    ensures UpdateEntry(catalog, id, u).Success? ==>
      var r := UpdateEntry(catalog, id, u).value;
      && |r| == |catalog| && Ids(r) == Ids(catalog)
      && (forall j :: 0 <= j < |catalog| && FirstOfId(Ids(catalog), j) && catalog[j].id == id ==>
            r[j] == ProductRecord(id, u.name, u.price, u.stock, u.minStock))
      && (forall j :: 0 <= j < |catalog| && !(FirstOfId(Ids(catalog), j) && catalog[j].id == id) ==>
            r[j] == catalog[j])
  {
    match FindIndex(Ids(catalog), id)
    case None =>
    case Some(k) =>
      var r := UpdateEntry(catalog, id, u).value;
      forall j | 0 <= j < |catalog| && FirstOfId(Ids(catalog), j) && catalog[j].id == id
        ensures j == k
      {
      }
      assert Ids(r) == Ids(catalog);
  }

  /** The loaded products as values. */
  function Records(ps: seq<Product>): (r: seq<ProductRecord>)
    reads ps
    ensures |r| == |ps| && forall i :: 0 <= i < |ps| ==> r[i] == ps[i].Record()
  {
    seq(|ps|, i requires 0 <= i < |ps| reads ps => ps[i].Record())
  }

  /** The state of a bus (its events, next id, readable log and listener
      calls) after it turned exactly the given alerts into events, in order,
      starting from the given events, id, log and listener calls. */
  ghost predicate BusAfter(emitted: seq<Notification>, nextId: nat, history: seq<Notification>,
                           deliveries: seq<Delivery<Notification>>, listeners: map<NotificationKind, seq<ListenerId>>,
                           emitted0: seq<Notification>, firstId: nat, history0: seq<Notification>,
                           deliveries0: seq<Delivery<Notification>>, alerts: seq<Alert>, now: int)
  {
    var events := Stamped(alerts, firstId, now);
    && emitted == emitted0 + events
    && nextId == firstId + |alerts|
    && history == Logged(history0, events)
    && deliveries == deliveries0 + Dispatch(listeners, events)
  }

  /** One more emit keeps a bus in step with one more alert. */
  lemma {:induction false} BusAfterSnoc(emitted: seq<Notification>, nextId: nat, history: seq<Notification>,
                                        deliveries: seq<Delivery<Notification>>, listeners: map<NotificationKind, seq<ListenerId>>,
                                        emitted0: seq<Notification>, firstId: nat, history0: seq<Notification>,
                                        deliveries0: seq<Delivery<Notification>>, alerts: seq<Alert>, a: Alert, now: int)
    requires BusAfter(emitted, nextId, history, deliveries, listeners, emitted0, firstId, history0, deliveries0, alerts, now)
    ensures var n := Notification(nextId, a.kind, a.message, a.productId, now, false);
      BusAfter(emitted + [n], nextId + 1, [n] + history, deliveries + Broadcast(ListenersOf(listeners, a.kind), n),
               listeners, emitted0, firstId, history0, deliveries0, alerts + [a], now)
  {
    var events := Stamped(alerts, firstId, now);
    var n := Notification(nextId, a.kind, a.message, a.productId, now, false);
    StampedSnoc(alerts, a, firstId, now, history0, listeners);
    AppendAssoc(emitted0, events, [n]);
    AppendAssoc(deliveries0, Dispatch(listeners, events), Broadcast(ListenersOf(listeners, a.kind), n));
  }

  class InventoryService {
    /** What the product repository holds. */
    var catalog: seq<ProductRecord>
    /** The subscribed listeners, in subscription order. */
    var listeners: seq<ListenerId>
    /** Every listener call, in order, with the catalog it was given. */
    ghost var deliveries: seq<Delivery<seq<ProductRecord>>>
    const notifier: NotificationService

    constructor(catalog: seq<ProductRecord>, notifier: NotificationService)
      ensures this.catalog == catalog && this.notifier == notifier
      ensures listeners == [] && deliveries == []
    {
      this.catalog := catalog;
      this.notifier := notifier;
      listeners := [];
      deliveries := [];
    }

    /** `subscribe(listener)`: the listener goes last. */
    method Subscribe(listener: ListenerId)
      modifies this`listeners
      ensures listeners == old(listeners) + [listener]
    {
      listeners := listeners + [listener];
    }

    /** The function `subscribe` returns: every registration of the listener
        goes, the others stay in order. */
    method Unsubscribe(listener: ListenerId)
      modifies this`listeners
      ensures listeners == Without(old(listeners), listener)
      ensures listener !in listeners
    {
      listeners := Without(listeners, listener);
      WithoutMembership(old(listeners), listener);
    }

    /** `getAllProducts()` / `repository.getProducts()`: one fresh `Product`
        per stored row, rebuilt through `Product.fromJSON`. */
    method GetAllProducts() returns (ps: seq<Product>)
      ensures Records(ps) == catalog
      ensures Distinct(ps) && forall i :: 0 <= i < |ps| ==> fresh(ps[i])
    {
      ps := [];
      var i := 0;
      while i < |catalog|
        invariant 0 <= i <= |catalog| && |ps| == i
        invariant forall j :: 0 <= j < i ==> fresh(ps[j]) && ps[j].Record() == catalog[j]
        invariant Distinct(ps)
      {
        JsonRoundTrip(catalog[i]);
        var p := new Product.FromJSON(ToJson(catalog[i]));
        ps := ps + [p];
        i := i + 1;
      }
    }

    /** `repository.saveProducts(products)`: clear, then put every product. */
    method SaveProducts(ps: seq<Product>)
      modifies this`catalog
      ensures catalog == Records(ps)
    {
      catalog := Records(ps);
    }

    /** `notifyChanges()`: the stored catalog goes to every listener, in
        subscription order. */
    method NotifyChanges()
      modifies this`deliveries
      ensures deliveries == old(deliveries) + Broadcast(listeners, catalog)
    {
      var products := catalog;
      var i := 0;
      while i < |listeners|
        invariant 0 <= i <= |listeners|
        invariant deliveries == old(deliveries) + Broadcast(listeners[..i], products)
        modifies this`deliveries
      {
        assert listeners[..i + 1][..i] == listeners[..i];
        deliveries := deliveries + [Delivery(listeners[i], products)];
        i := i + 1;
      }
      assert listeners[..i] == listeners;
    }

    /** `createProduct(name, price, stock, minStock)`: the new product goes
        last, nothing is validated, and the listeners hear of it. The id
        (`crypto.randomUUID()`) is given by the caller. */
    method CreateProduct(id: string, name: string, price: int, stock: int, minStock: int)
      modifies this`catalog, this`deliveries
      ensures catalog == old(catalog) + [ProductRecord(id, name, price, stock, minStock)]
      ensures deliveries == old(deliveries) + Broadcast(listeners, catalog)
    {
      var products := GetAllProducts();
      var product := new Product(id, name, price, stock, minStock);
      SaveProducts(products + [product]);
      assert Records(products + [product]) == old(catalog) + [product.Record()];
      NotifyChanges();
    }

    /** The bus, started from the given log, events and listener calls, has
        turned exactly the given alerts into events, in order. */
    ghost predicate Announced(emitted0: seq<Notification>, firstId: nat, history0: seq<Notification>,
                              deliveries0: seq<Delivery<Notification>>, alerts: seq<Alert>, now: int)
      reads notifier
    {
      var events := Stamped(alerts, firstId, now);
      && notifier.emitted == emitted0 + events
      && notifier.nextId == firstId + |alerts|
      && notifier.GetHistory() == Logged(history0, events)
      && notifier.deliveries == deliveries0 + Dispatch(notifier.listeners, events)
    }

    /** `updateStockBatch(items)`: the debit pass on freshly loaded products.
        The store and the listeners are touched only when every line went
        through; the alerts of the lines before a failing one have gone out
        all the same. `now` is the time the bus stamps on each event. */
    method UpdateStockBatch(items: seq<StockLine>, now: int) returns (r: Outcome<Error>)
      modifies this`catalog, this`deliveries
      modifies notifier`storage, notifier`nextId, notifier`emitted, notifier`deliveries
      ensures var run := DebitRun(old(catalog), items);
        && (r.Pass? <==> run.result.Success?)
        && (r.Fail? ==> r.error == run.result.error && catalog == old(catalog) && deliveries == old(deliveries))
        && (r.Pass? ==> catalog == run.result.value && deliveries == old(deliveries) + Broadcast(listeners, catalog))
      ensures Announced(old(notifier.emitted), old(notifier.nextId), old(notifier.GetHistory()), old(notifier.deliveries),
                        DebitRun(old(catalog), items).alerts, now)
    {
      var products := GetAllProducts();
      r := DebitPass(products, items, now,
        notifier.emitted, notifier.nextId, notifier.GetHistory(), notifier.deliveries);
      if r.Fail? {
        return;
      }
      SaveProducts(products);
      NotifyChanges();
    }

    /** The loop of `updateStockBatch` over the loaded products: one line at
        a time, stopping at the first error. */
    method DebitPass(products: seq<Product>, items: seq<StockLine>, now: int,
                     ghost emitted0: seq<Notification>, ghost firstId: nat, ghost history0: seq<Notification>,
                     ghost deliveries0: seq<Delivery<Notification>>)
        returns (r: Outcome<Error>)
      requires Distinct(products)
      requires Announced(emitted0, firstId, history0, deliveries0, [], now)
      modifies products, notifier`storage, notifier`nextId, notifier`emitted, notifier`deliveries
      ensures var run := DebitRun(old(Records(products)), items);
        && (r.Pass? <==> run.result.Success?)
        && (r.Fail? ==> r.error == run.result.error)
        && (r.Pass? ==> Records(products) == run.result.value)
        && Announced(emitted0, firstId, history0, deliveries0, run.alerts, now)
    {
      ghost var loaded := Records(products);
      ghost var alerts: seq<Alert> := [];
      var i := 0;
      while i < |items|
        invariant 0 <= i <= |items|
        invariant DebitRun(loaded, items[..i]) == BatchRun(Success(Records(products)), alerts)
        invariant Announced(emitted0, firstId, history0, deliveries0, alerts, now)
      {
        DebitRunUnfold(loaded, items, i);
        ghost var step := DebitLine(Records(products), items[i]);
        var outcome := ApplyLine(products, items[i], now, emitted0, firstId, history0, deliveries0, alerts);
        if outcome.Fail? {
          DebitRunPrefix(loaded, items, i + 1);
          return Fail(outcome.error);
        }
        alerts := alerts + step.alerts;
        i := i + 1;
      }
      assert items[..i] == items;
      r := Pass;
    }

    /** One pass of the loop in `updateStockBatch`: find the product, debit
        it, and emit the out-of-stock or else the low-stock alert. */
    method ApplyLine(products: seq<Product>, item: StockLine, now: int,
                     ghost emitted0: seq<Notification>, ghost firstId: nat, ghost history0: seq<Notification>,
                     ghost deliveries0: seq<Delivery<Notification>>, ghost alerts: seq<Alert>)
        returns (r: Outcome<Error>)
      requires Distinct(products)
      requires Announced(emitted0, firstId, history0, deliveries0, alerts, now)
      modifies products, notifier`storage, notifier`nextId, notifier`emitted, notifier`deliveries
      ensures var step := DebitLine(old(Records(products)), item);
        && (r.Pass? <==> step.result.Success?)
        && (r.Fail? ==> r.error == step.result.error && step.alerts == [])
        && (r.Pass? ==> Records(products) == step.result.value)
        && Announced(emitted0, firstId, history0, deliveries0, alerts + step.alerts, now)
    {
      var k;
      r, k := DebitItem(products, item);
      if r.Fail? {
        assert alerts + [] == alerts;
        return;
      }
      RaiseAlert(products[k], now, emitted0, firstId, history0, deliveries0, alerts);
    }

    /** The lookup and the debit of one line, without the alert; `k` is where
        the debited product stands. */
    method DebitItem(products: seq<Product>, item: StockLine) returns (r: Outcome<Error>, k: nat)
      requires Distinct(products)
      modifies products
      ensures var step := DebitLine(old(Records(products)), item);
        && (r.Pass? <==> step.result.Success?)
        && (r.Fail? ==> r.error == step.result.error && step.alerts == [])
        && (r.Pass? ==> k < |products| && Records(products) == step.result.value
                        && step.alerts == AlertsOf(products[k].Record()))
    {
      ghost var current := Records(products);
      var found := FindIndex(Ids(Records(products)), item.productId);
      if found.None? {
        return Fail(ProductNotFound(item.productId)), 0;
      }
      k := found.value;
      var product := products[k];
      r := product.DecreaseStock(item.quantity);
      if r.Pass? {
        assert Records(products) == current[k := product.Record()];
      }
    }

    /** The alert rule after a debit: `inventory:out` when nothing is left,
        else `inventory:low` when the stock is at or under the threshold. */
    method RaiseAlert(product: Product, now: int,
                      ghost emitted0: seq<Notification>, ghost firstId: nat, ghost history0: seq<Notification>,
                      ghost deliveries0: seq<Delivery<Notification>>, ghost alerts: seq<Alert>)
      requires Announced(emitted0, firstId, history0, deliveries0, alerts, now)
      modifies notifier`storage, notifier`nextId, notifier`emitted, notifier`deliveries
      ensures Announced(emitted0, firstId, history0, deliveries0, alerts + AlertsOf(old(product.Record())), now)
    {
      if product.IsOut() {
        Announce(Alert(InventoryOut, "AGOTADO: " + product.name, product.id), now,
          emitted0, firstId, history0, deliveries0, alerts);
      } else if product.IsLow() {
        Announce(Alert(InventoryLow, "STOCK BAJO: " + product.name + " (" + Decimal(product.stock) + ")", product.id), now,
          emitted0, firstId, history0, deliveries0, alerts);
      } else {
        assert alerts + AlertsOf(product.Record()) == alerts;
      }
    }

    /** `notifier.emit(kind, { message, productId })` for one alert. */
    method Announce(a: Alert, now: int,
                    ghost emitted0: seq<Notification>, ghost firstId: nat, ghost history0: seq<Notification>,
                    ghost deliveries0: seq<Delivery<Notification>>, ghost alerts: seq<Alert>)
      requires Announced(emitted0, firstId, history0, deliveries0, alerts, now)
      modifies notifier`storage, notifier`nextId, notifier`emitted, notifier`deliveries
      ensures Announced(emitted0, firstId, history0, deliveries0, alerts + [a], now)
    {
      BusAfterSnoc(notifier.emitted, notifier.nextId, notifier.GetHistory(), notifier.deliveries, notifier.listeners,
                   emitted0, firstId, history0, deliveries0, alerts, a, now);
      notifier.Emit(a.kind, a.message, a.productId, now);
    }

    /** `restoreStockBatch(items)`: the credit pass on freshly loaded
        products. Lines for products not in the catalog are skipped; a line
        the credit refuses ends the pass before anything is saved. */
    method RestoreStockBatch(items: seq<StockLine>) returns (r: Outcome<Error>)
      modifies this`catalog, this`deliveries
      ensures var run := CreditRun(old(catalog), items);
        && (r.Pass? <==> run.Success?)
        && (r.Fail? ==> r.error == run.error && catalog == old(catalog) && deliveries == old(deliveries))
        && (r.Pass? ==> catalog == run.value && deliveries == old(deliveries) + Broadcast(listeners, catalog))
    {
      var products := GetAllProducts();
      r := CreditPass(products, items);
      if r.Fail? {
        return;
      }
      SaveProducts(products);
      NotifyChanges();
    }

    /** The loop of `restoreStockBatch` over the loaded products. */
    method CreditPass(products: seq<Product>, items: seq<StockLine>) returns (r: Outcome<Error>)
      requires Distinct(products)
      modifies products
      ensures var run := CreditRun(old(Records(products)), items);
        && (r.Pass? <==> run.Success?)
        && (r.Fail? ==> r.error == run.error)
        && (r.Pass? ==> Records(products) == run.value)
    {
      ghost var loaded := Records(products);
      var i := 0;
      while i < |items|
        invariant 0 <= i <= |items|
        invariant CreditRun(loaded, items[..i]) == Success(Records(products))
      {
        CreditRunUnfold(loaded, items, i);
        var outcome := CreditItem(products, items[i]);
        if outcome.Fail? {
          CreditRunPrefix(loaded, items, i + 1);
          return Fail(outcome.error);
        }
        i := i + 1;
      }
      assert items[..i] == items;
      r := Pass;
    }

    /** One pass of the loop in `restoreStockBatch`. */
    method CreditItem(products: seq<Product>, item: StockLine) returns (r: Outcome<Error>)
      requires Distinct(products)
      modifies products
      ensures var step := CreditLine(old(Records(products)), item);
        && (r.Pass? <==> step.Success?)
        && (r.Fail? ==> r.error == step.error)
        && (r.Pass? ==> Records(products) == step.value)
    {
      ghost var current := Records(products);
      var found := FindIndex(Ids(Records(products)), item.productId);
      if found.None? {
        return Pass;
      }
      var k := found.value;
      var product := products[k];
      r := product.IncreaseStock(item.quantity);
      if r.Pass? {
        assert Records(products) == current[k := product.Record()];
      }
    }

    /** `updateProduct(id, updates)`: the first product with that id is
        replaced, at its index, by a product built from the updates under the
        same id; a missing id throws before anything is saved. */
    method UpdateProduct(id: string, updates: ProductUpdate) returns (r: Outcome<Error>)
      modifies this`catalog, this`deliveries
      ensures var res := UpdateEntry(old(catalog), id, updates);
        && (r.Pass? <==> res.Success?)
        && (r.Fail? ==> r.error == res.error && catalog == old(catalog) && deliveries == old(deliveries))
        && (r.Pass? ==> catalog == res.value && deliveries == old(deliveries) + Broadcast(listeners, catalog))
    {
      var products := GetAllProducts();
      var index := FindIndex(Ids(Records(products)), id);
      if index.None? {
        return Fail(UnknownProduct);
      }
      var k := index.value;
      var currentProduct := products[k];
      var updatedProduct := new Product(currentProduct.id, updates.name, updates.price, updates.stock, updates.minStock);
      ghost var before := Records(products);
      products := products[k := updatedProduct];
      assert Records(products) == before[k := updatedProduct.Record()];
      SaveProducts(products);
      NotifyChanges();
      r := Pass;
    }
  }
}
