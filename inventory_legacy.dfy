/** The inventory coordinator of the older tree
    (Sistema-de-Ordenes/src/core/services/InventoryService.ts). It works
    like the newer one, with three differences: its products are the older
    entities, whose credit has no guard, so the credit pass never fails; its
    bus is the older one, whose `emit` throws when the stored log does not
    parse, and that throw ends the debit pass at the first alert; and it has
    no `updateProduct`. */
module LegacyInventory {
  import opened Base
  import opened Stock
  import opened LegacyStock
  import opened Notifications
  import opened LegacyNotifications
  import opened Batch

  // ---------------------------------------------------------------------
  // The credit pass of the older `restoreStockBatch`

  function UncheckedCreditLine(current: seq<ProductRecord>, line: StockLine): seq<ProductRecord>
  {
    match FindIndex(Ids(current), line.productId)
    case None => current
    case Some(k) => current[k := UncheckedCredit(current[k], line.quantity)]
  }

  function UncheckedCreditRun(catalog: seq<ProductRecord>, lines: seq<StockLine>): seq<ProductRecord>
  {
    if lines == [] then catalog
    else UncheckedCreditLine(UncheckedCreditRun(catalog, lines[..|lines| - 1]), lines[|lines| - 1])
  }

  lemma {:induction false} UncheckedCreditLineStep(catalog: seq<ProductRecord>, init: seq<StockLine>, line: StockLine)
    ensures UncheckedCreditLine(Credited(catalog, init), line) == Credited(catalog, init + [line])
  {
    match FindIndex(Ids(catalog), line.productId)
    case None => UncheckedCreditLineUnknown(catalog, init, line);
    case Some(k) => UncheckedCreditLineKnown(catalog, init, line, k);
  }

  lemma {:induction false} UncheckedCreditLineUnknown(catalog: seq<ProductRecord>, init: seq<StockLine>, line: StockLine)
    requires FindIndex(Ids(catalog), line.productId) == None
    ensures UncheckedCreditLine(Credited(catalog, init), line) == Credited(catalog, init + [line])
  {
    CreditedFind(catalog, init, line.productId);
    CreditedUnknown(catalog, init, line);
    UncheckedCreditLineSkips(Credited(catalog, init), line);
  }

  lemma {:induction false} UncheckedCreditLineKnown(catalog: seq<ProductRecord>, init: seq<StockLine>, line: StockLine, k: nat)
    requires FindIndex(Ids(catalog), line.productId) == Some(k)
    ensures UncheckedCreditLine(Credited(catalog, init), line) == Credited(catalog, init + [line])
  {
    CreditedFind(catalog, init, line.productId);
    UncheckedCreditLineAdds(Credited(catalog, init), line, k);
    CreditedSnoc(catalog, init, line, k);
  }

  /** A line for an unknown product changes nothing. */
  lemma UncheckedCreditLineSkips(current: seq<ProductRecord>, line: StockLine)
    requires FindIndex(Ids(current), line.productId) == None
    ensures UncheckedCreditLine(current, line) == current
  { }

  /** A line for a known product adds its quantity to that product. */
  lemma UncheckedCreditLineAdds(current: seq<ProductRecord>, line: StockLine, k: nat)
    requires FindIndex(Ids(current), line.productId) == Some(k)
    ensures k < |current|
    ensures UncheckedCreditLine(current, line) == current[k := current[k].(stock := current[k].stock + line.quantity)]
  { }

  /** The older credit pass in closed form: every line naming a known product
      is applied whatever its quantity, unknown products are skipped, and
      the pass never fails. */
  lemma {:induction false} UncheckedCreditRunSpec(catalog: seq<ProductRecord>, lines: seq<StockLine>)
    ensures UncheckedCreditRun(catalog, lines) == Credited(catalog, lines)
    decreases |lines|
  {
    if lines == [] {
      assert forall k :: 0 <= k < |catalog| ==> Credited(catalog, [])[k] == catalog[k];
    } else {
      var init, line := lines[..|lines| - 1], lines[|lines| - 1];
      assert lines == init + [line];
      UncheckedCreditRunSpec(catalog, init);
      UncheckedCreditLineStep(catalog, init, line);
    }
  }

  /** Where the newer credit pass succeeds the older one gives the same
      catalog; where the newer one refuses a non-positive quantity the older
      one applies it. After a successful debit pass the older credit pass of
      the same lines restores the catalog exactly. */
  lemma {:induction false} UncheckedCreditRunAgrees(catalog: seq<ProductRecord>, lines: seq<StockLine>)
    ensures CreditRun(catalog, lines).Success? ==> CreditRun(catalog, lines).value == UncheckedCreditRun(catalog, lines)
    ensures DebitRun(catalog, lines).result.Success? ==>
      UncheckedCreditRun(DebitRun(catalog, lines).result.value, lines) == catalog
  {
    CreditRunSpec(catalog, lines);
    UncheckedCreditRunSpec(catalog, lines);
    if DebitRun(catalog, lines).result.Success? {
      var debited := DebitRun(catalog, lines).result.value;
      DebitThenCreditRestores(catalog, lines);
      CreditRunSpec(debited, lines);
      UncheckedCreditRunSpec(debited, lines);
    }
  }

  // ---------------------------------------------------------------------
  // The debit pass of the older `updateStockBatch`

  /** One line of the older debit pass. When the bus cannot read its log,
      the first alert throws out of the pass. */
  function LegacyDebitStep(before: BatchRun, line: StockLine, unreadable: bool): BatchRun
  {
    if before.result.Failure? then before
    else
      var step := DebitLine(before.result.value, line);
      if unreadable && step.alerts != [] then BatchRun(Failure(UnreadableStorage), before.alerts)
      else BatchRun(step.result, before.alerts + step.alerts)
  }

  /** With an unreadable log a step raises no alert of its own. */
  lemma {:induction false} LegacyDebitStepQuiet(before: BatchRun, line: StockLine)
    requires before.alerts == []
    ensures LegacyDebitStep(before, line, true).alerts == []
  {
    if before.result.Success? {
      var step := DebitLine(before.result.value, line);
      if step.alerts == [] {
        assert before.alerts + step.alerts == [];
      }
    }
  }

  function LegacyDebitRun(catalog: seq<ProductRecord>, lines: seq<StockLine>, unreadable: bool): BatchRun
  {
    if lines == [] then BatchRun(Success(catalog), [])
    else LegacyDebitStep(LegacyDebitRun(catalog, lines[..|lines| - 1], unreadable), lines[|lines| - 1], unreadable)
  }

  /** With a readable log the older debit pass is the newer one. */
  lemma {:induction false} LegacyDebitRunReadable(catalog: seq<ProductRecord>, lines: seq<StockLine>)
    ensures LegacyDebitRun(catalog, lines, false) == DebitRun(catalog, lines)
  {
    if lines != [] {
      LegacyDebitRunReadable(catalog, lines[..|lines| - 1]);
    }
  }

  /** With an unreadable log no alert goes out, and the pass fails as soon as
      the newer pass would have raised its first alert. */
  lemma {:induction false} LegacyDebitRunUnreadable(catalog: seq<ProductRecord>, lines: seq<StockLine>)
    ensures LegacyDebitRun(catalog, lines, true).alerts == []
    ensures LegacyDebitRun(catalog, lines, true).result ==
      if DebitRun(catalog, lines).alerts == [] then DebitRun(catalog, lines).result else Failure(UnreadableStorage)
  {
    if lines != [] {
      var init := lines[..|lines| - 1];
      LegacyDebitRunUnreadable(catalog, init);
      DebitRunPrefix(catalog, lines, |init|);
      assert lines[..|init|] == init;
    }
  }

  lemma {:induction false} LegacyDebitRunPrefix(catalog: seq<ProductRecord>, lines: seq<StockLine>, n: nat, unreadable: bool)
    requires n <= |lines|
    requires LegacyDebitRun(catalog, lines[..n], unreadable).result.Failure?
    ensures LegacyDebitRun(catalog, lines, unreadable) == LegacyDebitRun(catalog, lines[..n], unreadable)
    decreases |lines|
  {
    if n == |lines| {
      assert lines[..n] == lines;
    } else {
      var init := lines[..|lines| - 1];
      assert init[..n] == lines[..n];
      LegacyDebitRunPrefix(catalog, init, n, unreadable);
    }
  }

  lemma {:induction false} LegacyDebitRunUnfold(catalog: seq<ProductRecord>, lines: seq<StockLine>, i: nat, unreadable: bool)
    requires i < |lines|
    ensures LegacyDebitRun(catalog, lines[..i + 1], unreadable) ==
      LegacyDebitStep(LegacyDebitRun(catalog, lines[..i], unreadable), lines[i], unreadable)
  {
    assert lines[..i + 1][..i] == lines[..i];
  }

  function LegacyRecords(ps: seq<LegacyProduct>): (r: seq<ProductRecord>)
    reads ps
    ensures |r| == |ps| && forall i :: 0 <= i < |ps| ==> r[i] == ps[i].Record()
  {
    seq(|ps|, i requires 0 <= i < |ps| reads ps => ps[i].Record())
  }

  /** The state of an older bus after it turned exactly the given alerts
      into events and drew `spent` further ids, starting from the given
      events, id, stored log and listener calls. */
  ghost predicate LegacyBusAfter(emitted: seq<Notification>, nextId: nat, storage: StoredLog,
                                 deliveries: seq<Delivery<Notification>>, listeners: map<NotificationKind, seq<ListenerId>>,
                                 emitted0: seq<Notification>, firstId: nat, stored0: StoredLog,
                                 deliveries0: seq<Delivery<Notification>>, alerts: seq<Alert>, spent: nat, now: int)
  {
    var events := Stamped(alerts, firstId, now);
    && emitted == emitted0 + events
    && nextId == firstId + |alerts| + spent
    && storage == (if alerts == [] then stored0 else Entries(Logged(ReadLog(stored0), events)))
    && deliveries == deliveries0 + Dispatch(listeners, events)
  }

  /** One more emit on the older bus: with a readable log it keeps the bus in
      step with one more alert; with an unreadable one it only draws an id. */
  lemma {:induction false} LegacyBusAfterSnoc(emitted: seq<Notification>, nextId: nat, storage: StoredLog,
                                              deliveries: seq<Delivery<Notification>>, listeners: map<NotificationKind, seq<ListenerId>>,
                                              emitted0: seq<Notification>, firstId: nat, stored0: StoredLog,
                                              deliveries0: seq<Delivery<Notification>>, alerts: seq<Alert>, a: Alert, now: int)
    requires stored0.Unparsable? ==> alerts == []
    requires LegacyBusAfter(emitted, nextId, storage, deliveries, listeners, emitted0, firstId, stored0, deliveries0, alerts, 0, now)
    ensures storage.Unparsable? <==> stored0.Unparsable?
    ensures stored0.Unparsable? ==>
      LegacyBusAfter(emitted, nextId + 1, storage, deliveries, listeners, emitted0, firstId, stored0, deliveries0, alerts, 1, now)
    ensures !stored0.Unparsable? ==>
      var n := Notification(nextId, a.kind, a.message, a.productId, now, false);
      LegacyBusAfter(emitted + [n], nextId + 1, Entries([n] + ReadLog(storage)),
                     deliveries + Broadcast(ListenersOf(listeners, a.kind), n),
                     listeners, emitted0, firstId, stored0, deliveries0, alerts + [a], 0, now)
  {
    if !stored0.Unparsable? {
      var events := Stamped(alerts, firstId, now);
      var n := Notification(nextId, a.kind, a.message, a.productId, now, false);
      StampedSnoc(alerts, a, firstId, now, ReadLog(stored0), listeners);
      assert ReadLog(storage) == Logged(ReadLog(stored0), events);
      AppendAssoc(emitted0, events, [n]);
      AppendAssoc(deliveries0, Dispatch(listeners, events), Broadcast(ListenersOf(listeners, a.kind), n));
    }
  }

  class LegacyInventoryService {
    /** What the product repository holds. */
    var catalog: seq<ProductRecord>
    var listeners: seq<ListenerId>
    ghost var deliveries: seq<Delivery<seq<ProductRecord>>>
    const notifier: LegacyNotificationService

    constructor(catalog: seq<ProductRecord>, notifier: LegacyNotificationService)
      ensures this.catalog == catalog && this.notifier == notifier
      ensures listeners == [] && deliveries == []
    {
      this.catalog := catalog;
      this.notifier := notifier;
      listeners := [];
      deliveries := [];
    }

    method Subscribe(listener: ListenerId)
      modifies this`listeners
      ensures listeners == old(listeners) + [listener]
    {
      listeners := listeners + [listener];
    }

    method Unsubscribe(listener: ListenerId)
      modifies this`listeners
      ensures listeners == Without(old(listeners), listener)
      ensures listener !in listeners
    {
      listeners := Without(listeners, listener);
      WithoutMembership(old(listeners), listener);
    }

    /** `repository.getProducts()`: one fresh product per stored row, its
        stock read from `_stock`, or from `stock` when `_stock` is absent. */
    method GetAllProducts() returns (ps: seq<LegacyProduct>)
      ensures LegacyRecords(ps) == catalog
      ensures Distinct(ps) && forall i :: 0 <= i < |ps| ==> fresh(ps[i])
    {
      ps := [];
      var i := 0;
      while i < |catalog|
        invariant 0 <= i <= |catalog| && |ps| == i
        invariant forall j :: 0 <= j < i ==> fresh(ps[j]) && ps[j].Record() == catalog[j]
        invariant Distinct(ps)
      {
        var row := ToJson(catalog[i]);
        JsonRoundTrip(catalog[i]);
        var p := new LegacyProduct(row.id, row.name, row.price, FromJson(row).stock, row.minStock);
        ps := ps + [p];
        i := i + 1;
      }
    }

    method SaveProducts(ps: seq<LegacyProduct>)
      modifies this`catalog
      ensures catalog == LegacyRecords(ps)
    {
      catalog := LegacyRecords(ps);
    }

    method NotifyChanges()
      modifies this`deliveries
      ensures deliveries == old(deliveries) + Broadcast(listeners, catalog)
    {
      var products := catalog;
      var i := 0;
      while i < |listeners|
        invariant 0 <= i <= |listeners|
        invariant deliveries == old(deliveries) + Broadcast(listeners[..i], products)
        modifies this`deliveries
      {
        assert listeners[..i + 1][..i] == listeners[..i];
        deliveries := deliveries + [Delivery(listeners[i], products)];
        i := i + 1;
      }
      assert listeners[..i] == listeners;
    }

    /** `createProduct(name, price, stock, minStock)`: exactly one product
        more, at the end. */
    method CreateProduct(id: string, name: string, price: int, stock: int, minStock: int)
      modifies this`catalog, this`deliveries
      ensures catalog == old(catalog) + [ProductRecord(id, name, price, stock, minStock)]
      ensures deliveries == old(deliveries) + Broadcast(listeners, catalog)
    {
      var products := GetAllProducts();
      var product := new LegacyProduct(id, name, price, stock, minStock);
      SaveProducts(products + [product]);
      assert LegacyRecords(products + [product]) == old(catalog) + [product.Record()];
      NotifyChanges();
    }

    /** The older bus, started from the given log, events and listener calls,
        has turned exactly the given alerts into events, and has drawn
        `spent` further ids for events it could not store. */
    ghost predicate Announced(emitted0: seq<Notification>, firstId: nat, stored0: StoredLog,
                              deliveries0: seq<Delivery<Notification>>, alerts: seq<Alert>, spent: nat, now: int)
      reads notifier
    {
      var events := Stamped(alerts, firstId, now);
      && notifier.emitted == emitted0 + events
      && notifier.nextId == firstId + |alerts| + spent
      && notifier.storage == (if alerts == [] then stored0 else Entries(Logged(ReadLog(stored0), events)))
      && notifier.deliveries == deliveries0 + Dispatch(notifier.listeners, events)
    }

    /** The older `updateStockBatch(items)`: as the newer one while the bus
        can read its log; otherwise the first alert throws out of the pass,
        before anything is saved. */
    method UpdateStockBatch(items: seq<StockLine>, now: int) returns (r: Outcome<Error>)
      modifies this`catalog, this`deliveries
      modifies notifier`storage, notifier`nextId, notifier`emitted, notifier`deliveries
      ensures var run := LegacyDebitRun(old(catalog), items, old(notifier.storage).Unparsable?);
        && (r.Pass? <==> run.result.Success?)
        && (r.Fail? ==> r.error == run.result.error && catalog == old(catalog) && deliveries == old(deliveries))
        && (r.Pass? ==> catalog == run.result.value && deliveries == old(deliveries) + Broadcast(listeners, catalog))
        && Announced(old(notifier.emitted), old(notifier.nextId), old(notifier.storage), old(notifier.deliveries),
                     run.alerts, if run.result == Failure(UnreadableStorage) then 1 else 0, now)
    {
      var products := GetAllProducts();
      r := DebitPass(products, items, now, notifier.emitted, notifier.nextId, notifier.storage, notifier.deliveries);
      if r.Fail? {
        return;
      }
      SaveProducts(products);
      NotifyChanges();
    }

    /** The loop of the older `updateStockBatch` over the loaded products. */
    method DebitPass(products: seq<LegacyProduct>, items: seq<StockLine>, now: int,
                     ghost emitted0: seq<Notification>, ghost firstId: nat, ghost stored0: StoredLog,
                     ghost deliveries0: seq<Delivery<Notification>>)
        returns (r: Outcome<Error>)
      requires Distinct(products)
      requires Announced(emitted0, firstId, stored0, deliveries0, [], 0, now)
      modifies products, notifier`storage, notifier`nextId, notifier`emitted, notifier`deliveries
      ensures var run := LegacyDebitRun(old(LegacyRecords(products)), items, stored0.Unparsable?);
        && (r.Pass? <==> run.result.Success?)
        && (r.Fail? ==> r.error == run.result.error)
        && (r.Pass? ==> LegacyRecords(products) == run.result.value)
        && Announced(emitted0, firstId, stored0, deliveries0,
                     run.alerts, if run.result == Failure(UnreadableStorage) then 1 else 0, now)
    {
      ghost var unreadable := stored0.Unparsable?;
      ghost var loaded := LegacyRecords(products);
      ghost var alerts: seq<Alert> := [];
      var i := 0;
      while i < |items|
        invariant 0 <= i <= |items|
        invariant LegacyDebitRun(loaded, items[..i], unreadable) == BatchRun(Success(LegacyRecords(products)), alerts)
        invariant unreadable ==> alerts == []
        invariant Announced(emitted0, firstId, stored0, deliveries0, alerts, 0, now)
      {
        LegacyDebitRunUnfold(loaded, items, i, unreadable);
        ghost var next := LegacyDebitStep(BatchRun(Success(LegacyRecords(products)), alerts), items[i], unreadable);
        if unreadable {
          LegacyDebitStepQuiet(BatchRun(Success(LegacyRecords(products)), alerts), items[i]);
        }
        var outcome := ApplyLine(products, items[i], now, emitted0, firstId, stored0, deliveries0, alerts);
        if outcome.Fail? {
          LegacyDebitRunPrefix(loaded, items, i + 1, unreadable);
          return Fail(outcome.error);
        }
        alerts := next.alerts;
        i := i + 1;
      }
      assert items[..i] == items;
      r := Pass;
    }

    /** One pass of the loop in the older `updateStockBatch`. */
    method ApplyLine(products: seq<LegacyProduct>, item: StockLine, now: int,
                     ghost emitted0: seq<Notification>, ghost firstId: nat, ghost stored0: StoredLog,
                     ghost deliveries0: seq<Delivery<Notification>>, ghost alerts: seq<Alert>)
        returns (r: Outcome<Error>)
      requires Distinct(products)
      requires stored0.Unparsable? ==> alerts == []
      requires Announced(emitted0, firstId, stored0, deliveries0, alerts, 0, now)
      modifies products, notifier`storage, notifier`nextId, notifier`emitted, notifier`deliveries
      ensures var next := LegacyDebitStep(BatchRun(Success(old(LegacyRecords(products))), alerts), item, stored0.Unparsable?);
        && (r.Pass? <==> next.result.Success?)
        && (r.Fail? ==> r.error == next.result.error)
        && (r.Pass? ==> LegacyRecords(products) == next.result.value)
        && Announced(emitted0, firstId, stored0, deliveries0, next.alerts,
                     if next.result == Failure(UnreadableStorage) then 1 else 0, now)
    {
      ghost var step := DebitLine(LegacyRecords(products), item);
      ghost var next := LegacyDebitStep(BatchRun(Success(LegacyRecords(products)), alerts), item, stored0.Unparsable?);
      var k;
      r, k := DebitItem(products, item);
      if r.Fail? {
        assert next == BatchRun(step.result, alerts + []);
        assert alerts + [] == alerts;
        return;
      }
      assert next == if stored0.Unparsable? && step.alerts != [] then BatchRun(Failure(UnreadableStorage), alerts)
                     else BatchRun(step.result, alerts + step.alerts);
      r := RaiseAlert(products[k], now, emitted0, firstId, stored0, deliveries0, alerts, products);
    }

    /** The lookup and the debit of one line, without the alert. */
    method DebitItem(products: seq<LegacyProduct>, item: StockLine) returns (r: Outcome<Error>, k: nat)
      requires Distinct(products)
      modifies products
      ensures var step := DebitLine(old(LegacyRecords(products)), item);
        && (r.Pass? <==> step.result.Success?)
        && (r.Fail? ==> r.error == step.result.error && r.error != UnreadableStorage && step.alerts == [])
        && (r.Pass? ==> k < |products| && LegacyRecords(products) == step.result.value
                        && step.alerts == AlertsOf(products[k].Record()))
    {
      ghost var current := LegacyRecords(products);
      var found := FindIndex(Ids(LegacyRecords(products)), item.productId);
      if found.None? {
        return Fail(ProductNotFound(item.productId)), 0;
      }
      k := found.value;
      var product := products[k];
      r := product.DecreaseStock(item.quantity);
      if r.Pass? {
        assert LegacyRecords(products) == current[k := product.Record()];
      }
    }

    /** The alert rule after a debit, on the older bus. */
    method RaiseAlert(product: LegacyProduct, now: int,
                      ghost emitted0: seq<Notification>, ghost firstId: nat, ghost stored0: StoredLog,
                      ghost deliveries0: seq<Delivery<Notification>>, ghost alerts: seq<Alert>,
                      ghost loaded: seq<LegacyProduct>)
        returns (r: Outcome<Error>)
      requires stored0.Unparsable? ==> alerts == []
      requires Announced(emitted0, firstId, stored0, deliveries0, alerts, 0, now)
      modifies notifier`storage, notifier`nextId, notifier`emitted, notifier`deliveries
      ensures LegacyRecords(loaded) == old(LegacyRecords(loaded))
      ensures var raised := AlertsOf(old(product.Record()));
        if stored0.Unparsable? && raised != [] then
          r == Fail(UnreadableStorage) && Announced(emitted0, firstId, stored0, deliveries0, alerts, 1, now)
        else
          r == Pass && Announced(emitted0, firstId, stored0, deliveries0, alerts + raised, 0, now)
    {
      if product.IsOut() {
        r := Announce(Alert(InventoryOut, "AGOTADO: " + product.name, product.id), now,
          emitted0, firstId, stored0, deliveries0, alerts, loaded);
      } else if product.IsLow() {
        r := Announce(Alert(InventoryLow, "STOCK BAJO: " + product.name + " (" + Decimal(product.stock) + ")", product.id), now,
          emitted0, firstId, stored0, deliveries0, alerts, loaded);
      } else {
        assert alerts + AlertsOf(product.Record()) == alerts;
        r := Pass;
      }
    }

    /** `notifier.emit(kind, { message, productId })` for one alert on the
        older bus: it throws when the log cannot be read. */
    method Announce(a: Alert, now: int,
                    ghost emitted0: seq<Notification>, ghost firstId: nat, ghost stored0: StoredLog,
                    ghost deliveries0: seq<Delivery<Notification>>, ghost alerts: seq<Alert>,
                    ghost loaded: seq<LegacyProduct>)
        returns (r: Outcome<Error>)
      requires stored0.Unparsable? ==> alerts == []
      requires Announced(emitted0, firstId, stored0, deliveries0, alerts, 0, now)
      modifies notifier`storage, notifier`nextId, notifier`emitted, notifier`deliveries
      ensures LegacyRecords(loaded) == old(LegacyRecords(loaded))
      ensures stored0.Unparsable? ==> r == Fail(UnreadableStorage) && Announced(emitted0, firstId, stored0, deliveries0, alerts, 1, now)
      ensures !stored0.Unparsable? ==> r == Pass && Announced(emitted0, firstId, stored0, deliveries0, alerts + [a], 0, now)
    {
      LegacyBusAfterSnoc(notifier.emitted, notifier.nextId, notifier.storage, notifier.deliveries, notifier.listeners,
                         emitted0, firstId, stored0, deliveries0, alerts, a, now);
      r := notifier.Emit(a.kind, a.message, a.productId, now);
    }

    /** The older `restoreStockBatch(items)`: every line naming a known
        product is credited, whatever its quantity; the pass never fails. */
    method RestoreStockBatch(items: seq<StockLine>)
      modifies this`catalog, this`deliveries
      ensures catalog == UncheckedCreditRun(old(catalog), items)
      ensures deliveries == old(deliveries) + Broadcast(listeners, catalog)
    {
      var products := GetAllProducts();
      CreditPass(products, items);
      SaveProducts(products);
      NotifyChanges();
    }

    /** The loop of the older `restoreStockBatch` over the loaded products. */
    method CreditPass(products: seq<LegacyProduct>, items: seq<StockLine>)
      requires Distinct(products)
      modifies products
      ensures LegacyRecords(products) == UncheckedCreditRun(old(LegacyRecords(products)), items)
    {
      ghost var loaded := LegacyRecords(products);
      var i := 0;
      while i < |items|
        invariant 0 <= i <= |items|
        invariant UncheckedCreditRun(loaded, items[..i]) == LegacyRecords(products)
      {
        assert items[..i + 1][..i] == items[..i];
        CreditItem(products, items[i]);
        i := i + 1;
      }
      assert items[..i] == items;
    }

    method CreditItem(products: seq<LegacyProduct>, item: StockLine)
      requires Distinct(products)
      modifies products
      ensures LegacyRecords(products) == UncheckedCreditLine(old(LegacyRecords(products)), item)
    {
      ghost var current := LegacyRecords(products);
      var found := FindIndex(Ids(LegacyRecords(products)), item.productId);
      if found.Some? {
        var product := products[found.value];
        product.IncreaseStock(item.quantity);
        assert LegacyRecords(products) == current[found.value := product.Record()];
      }
    }
  }
}
