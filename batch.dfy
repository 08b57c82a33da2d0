/** The batch rules the inventory coordinator applies to the catalog, on
    values: a debit pass that stops at the first line it cannot apply and
    raises one alert per debited line, and a credit pass that skips unknown
    products. Each pass is a fold over the lines; each is also characterised
    in closed form, product by product. */
module Batch {
  import opened Base
  import opened Stock
  import opened Notifications

  /** One line of a batch: `{ productId, quantity }`. */
  datatype StockLine = StockLine(productId: string, quantity: int)

  /** The alert a debit may raise, before the bus gives it an id and a time. */
  datatype Alert = Alert(kind: NotificationKind, message: string, productId: string)

  /** What a debit pass produced: the new catalog or the first error, and the
      alerts raised before it ended. */
  datatype BatchRun = BatchRun(result: Result<seq<ProductRecord>, Error>, alerts: seq<Alert>)

  function Ids(catalog: seq<ProductRecord>): (ids: seq<string>)
    ensures |ids| == |catalog| && forall k :: 0 <= k < |catalog| ==> ids[k] == catalog[k].id
  {
    seq(|catalog|, k requires 0 <= k < |catalog| => catalog[k].id)
  }

  /** Finding a product by id: the index of the first entry with that id. */
  function FindIndex(ids: seq<string>, id: string): (r: Option<nat>)
    ensures r.Some? ==> r.value < |ids| && ids[r.value] == id
    ensures r.None? <==> id !in ids
  {
    if ids == [] then None
    else if ids[0] == id then Some(0)
    else match FindIndex(ids[1..], id)
      case None => None
      case Some(k) => Some(k + 1)
  }

  /** Whether position k holds the first product with its id, the only one
      `find` can ever reach. */
  predicate FirstOfId(ids: seq<string>, k: nat)
    requires k < |ids|
  {
    FindIndex(ids, ids[k]) == Some(k)
  }

  /** The first product with its id is the one no earlier entry shares its
      id with. */
  lemma {:induction false} FindIndexFirst(ids: seq<string>, k: nat)
    requires k < |ids|
    ensures FirstOfId(ids, k) <==> forall j :: 0 <= j < k ==> ids[j] != ids[k]
  {
    if k > 0 {
      if ids[0] != ids[k] {
        FindIndexFirst(ids[1..], k - 1);
        assert forall j :: 0 <= j < k - 1 ==> ids[1..][j] == ids[j + 1];
      }
    }
  }

  /** Nothing before the first match has the id. */
  lemma {:induction false} FindIndexEarlier(ids: seq<string>, id: string, j: nat)
    requires FindIndex(ids, id).Some? && j < FindIndex(ids, id).value
    ensures ids[j] != id
  {
    if j > 0 {
      FindIndexEarlier(ids[1..], id, j - 1);
    }
  }

  /** Appending an id leaves every earlier match where it was; the new id is
      found at the end only when it was absent. */
  lemma {:induction false} FindIndexSnoc(ids: seq<string>, extra: string, id: string)
    ensures FindIndex(ids + [extra], id) ==
      if id in ids then FindIndex(ids, id) else if id == extra then Some(|ids|) else None
  {
    if ids != [] && ids[0] != id {
      FindIndexSnoc(ids[1..], extra, id);
      assert (ids + [extra])[1..] == ids[1..] + [extra];
    }
  }

  // ---------------------------------------------------------------------
  // Alerts

  /** The alert rule applied after each line's debit: out of stock wins over
      low stock, and at most one alert is raised. */
  function AlertFor(p: ProductRecord): Option<Alert>
  {
    if OutOfStock(p) then Some(Alert(InventoryOut, "AGOTADO: " + p.name, p.id))
    else if LowStock(p) then Some(Alert(InventoryLow, "STOCK BAJO: " + p.name + " (" + Decimal(p.stock) + ")", p.id))
    else None
  }

  function AlertsOf(p: ProductRecord): (r: seq<Alert>)
    ensures |r| <= 1
  {
    match AlertFor(p)
    case None => []
    case Some(a) => [a]
  }

  /** The rule, stated by stock level: exactly one out-of-stock alert at zero,
      exactly one low-stock alert in (0, minStock], none otherwise; the alert
      names the debited product. */
  lemma AlertPolicy(p: ProductRecord)
    ensures p.stock == 0 ==> AlertsOf(p) == [Alert(InventoryOut, "AGOTADO: " + p.name, p.id)]
    ensures 0 < p.stock <= p.minStock ==> |AlertsOf(p)| == 1 && AlertsOf(p)[0].kind == InventoryLow
    ensures p.stock != 0 && !(0 < p.stock <= p.minStock) ==> AlertsOf(p) == []
    ensures forall a :: a in AlertsOf(p) ==> a.productId == p.id
  {
  }

  /** The events the bus makes of a run of alerts: consecutive ids from the
      bus's counter, the time of the batch, unread. */
  function Stamped(alerts: seq<Alert>, firstId: nat, now: int): (r: seq<Notification>)
    ensures |r| == |alerts|
  {
    if alerts == [] then []
    else
      var a := alerts[|alerts| - 1];
      Stamped(alerts[..|alerts| - 1], firstId, now)
        + [Notification(firstId + |alerts| - 1, a.kind, a.message, a.productId, now, false)]
  }

  /** Each alert becomes one unread event carrying its kind, message and
      product, and the events carry distinct ids. */
  lemma {:induction false} StampedEvents(alerts: seq<Alert>, firstId: nat, now: int)
    ensures forall i :: 0 <= i < |alerts| ==>
      Stamped(alerts, firstId, now)[i] == Notification(firstId + i, alerts[i].kind, alerts[i].message, alerts[i].productId, now, false)
    ensures forall i, j :: 0 <= i < j < |alerts| ==> Stamped(alerts, firstId, now)[i].id != Stamped(alerts, firstId, now)[j].id
  {
    if alerts != [] {
      StampedEvents(alerts[..|alerts| - 1], firstId, now);
    }
  }

  /** Stamping two runs of alerts one after the other: the second run's ids
      continue where the first run's stopped. */
  lemma {:induction false} StampedConcat(first: seq<Alert>, second: seq<Alert>, firstId: nat, now: int)
    ensures Stamped(first + second, firstId, now) == Stamped(first, firstId, now) + Stamped(second, firstId + |first|, now)
    decreases |second|
  {
    if second == [] {
      assert first + second == first;
    } else {
      var init := second[..|second| - 1];
      StampedConcat(first, init, firstId, now);
      assert (first + second)[..|first + second| - 1] == first + init;
    }
  }

  /** The events, log and listener calls of two runs of alerts joined. */
  lemma {:induction false} StampedRunsJoin(alerts: seq<Alert>, extra: seq<Alert>, firstId: nat, midId: nat, now: int,
                        log: seq<Notification>, listeners: map<NotificationKind, seq<ListenerId>>)
    requires midId == firstId + |alerts|
    ensures var before := Stamped(alerts, firstId, now);
      var added := Stamped(extra, midId, now);
      && Stamped(alerts + extra, firstId, now) == before + added
      && Logged(log, before + added) == Logged(Logged(log, before), added)
      && Dispatch(listeners, before + added) == Dispatch(listeners, before) + Dispatch(listeners, added)
  {
    var before := Stamped(alerts, firstId, now);
    var added := Stamped(extra, midId, now);
    StampedConcat(alerts, extra, firstId, now);
    LoggedConcat(log, before, added);
    DispatchConcat(listeners, before, added);
  }

  /** One more alert: one more event, put in front of the log and handed to
      the listeners of its kind. */
  lemma {:induction false} StampedSnoc(alerts: seq<Alert>, a: Alert, firstId: nat, now: int,
                    log: seq<Notification>, listeners: map<NotificationKind, seq<ListenerId>>)
    ensures var n := Notification(firstId + |alerts|, a.kind, a.message, a.productId, now, false);
      var events := Stamped(alerts, firstId, now);
      && Stamped(alerts + [a], firstId, now) == events + [n]
      && Logged(log, events + [n]) == [n] + Logged(log, events)
      && Dispatch(listeners, events + [n]) == Dispatch(listeners, events) + Broadcast(ListenersOf(listeners, a.kind), n)
  {
    assert (alerts + [a])[..|alerts|] == alerts;
    var events := Stamped(alerts, firstId, now);
    var n := Notification(firstId + |alerts|, a.kind, a.message, a.productId, now, false);
    assert (events + [n])[..|events|] == events;
  }

  // ---------------------------------------------------------------------
  // The debit pass of `updateStockBatch`

  /** One iteration of the loop: find the product, debit it, raise its alert. */
  function DebitLine(current: seq<ProductRecord>, line: StockLine): BatchRun
  {
    match FindIndex(Ids(current), line.productId)
    case None => BatchRun(Failure(ProductNotFound(line.productId)), [])
    case Some(k) =>
      match Debit(current[k], line.quantity)
      case Failure(e) => BatchRun(Failure(e), [])
      case Success(p) => BatchRun(Success(current[k := p]), AlertsOf(p))
  }

  /** The whole loop over the lines, stopping at the first error. */
  function DebitRun(catalog: seq<ProductRecord>, lines: seq<StockLine>): BatchRun
  {
    if lines == [] then BatchRun(Success(catalog), [])
    else
      var before := DebitRun(catalog, lines[..|lines| - 1]);
      if before.result.Failure? then before
      else
        var step := DebitLine(before.result.value, lines[|lines| - 1]);
        BatchRun(step.result, before.alerts + step.alerts)
  }

  /** The fold over one more line. */
  lemma {:induction false} DebitRunUnfold(catalog: seq<ProductRecord>, lines: seq<StockLine>, i: nat)
    requires i < |lines|
    ensures var before := DebitRun(catalog, lines[..i]);
      DebitRun(catalog, lines[..i + 1]) ==
        if before.result.Failure? then before
        else
          var step := DebitLine(before.result.value, lines[i]);
          BatchRun(step.result, before.alerts + step.alerts)
  {
    assert lines[..i + 1][..i] == lines[..i];
  }

  /** The total quantity the lines ask for one product; duplicates accumulate. */
  function QuantityFor(lines: seq<StockLine>, id: string): int
  {
    if lines == [] then 0
    else QuantityFor(lines[..|lines| - 1], id) + (if lines[|lines| - 1].productId == id then lines[|lines| - 1].quantity else 0)
  }

  lemma {:induction false} QuantityForNonNegative(lines: seq<StockLine>, id: string)
    requires forall i :: 0 <= i < |lines| ==> lines[i].quantity > 0
    ensures QuantityFor(lines, id) >= 0
  {
    if lines != [] {
      QuantityForNonNegative(lines[..|lines| - 1], id);
    }
  }

  /** The catalog after a successful debit pass, product by product: the
      first product with each id loses everything the lines ask for it, and
      every other entry is untouched. */
  function Debited(catalog: seq<ProductRecord>, lines: seq<StockLine>): (r: seq<ProductRecord>)
    ensures |r| == |catalog|
  {
    seq(|catalog|, k requires 0 <= k < |catalog| =>
      if FirstOfId(Ids(catalog), k) then catalog[k].(stock := catalog[k].stock - QuantityFor(lines, catalog[k].id))
      else catalog[k])
  }

  /** The closed form keeps every id where it stood. */
  lemma {:induction false} DebitedIds(catalog: seq<ProductRecord>, lines: seq<StockLine>)
    ensures Ids(Debited(catalog, lines)) == Ids(catalog)
  {
    var r := Debited(catalog, lines);
    forall k | 0 <= k < |catalog|
      ensures Ids(r)[k] == Ids(catalog)[k]
    {
      assert r[k].id == catalog[k].id;
    }
  }
  /** Looking an id up in the closed form finds it where the catalog has it. */
  lemma {:induction false} DebitedFind(catalog: seq<ProductRecord>, lines: seq<StockLine>, id: string)
    ensures FindIndex(Ids(Debited(catalog, lines)), id) == FindIndex(Ids(catalog), id)
  {
    DebitedIds(catalog, lines);
  }


  /** When a debit pass succeeds: every line names a known product with a
      positive quantity, and no product the lines name is asked for more than
      it holds. */
  predicate DebitAccepted(catalog: seq<ProductRecord>, lines: seq<StockLine>)
  {
    && (forall i :: 0 <= i < |lines| ==> lines[i].productId in Ids(catalog) && lines[i].quantity > 0)
    && (forall k :: 0 <= k < |catalog| && FirstOfId(Ids(catalog), k) && QuantityFor(lines, catalog[k].id) > 0 ==>
          QuantityFor(lines, catalog[k].id) <= catalog[k].stock)
  }

  lemma {:induction false} DebitedNone(catalog: seq<ProductRecord>)
    ensures Debited(catalog, []) == catalog
  {
    assert forall k :: 0 <= k < |catalog| ==> Debited(catalog, [])[k] == catalog[k];
  }

  /** Acceptance of a batch is inherited by its prefixes. */
  lemma {:induction false} DebitAcceptedPrefix(catalog: seq<ProductRecord>, lines: seq<StockLine>)
    requires lines != [] && DebitAccepted(catalog, lines)
    ensures DebitAccepted(catalog, lines[..|lines| - 1])
  {
    var init, last := lines[..|lines| - 1], lines[|lines| - 1];
    assert lines == init + [last];
    assert last.quantity > 0;
    forall i | 0 <= i < |init|
      ensures init[i].productId in Ids(catalog) && init[i].quantity > 0
    {
      assert init[i] == lines[i];
    }
    forall k | 0 <= k < |catalog| && FirstOfId(Ids(catalog), k) && QuantityFor(init, catalog[k].id) > 0
      ensures QuantityFor(init, catalog[k].id) <= catalog[k].stock
    {
      QuantityForSnoc(init, last, catalog[k].id);
    }
  }

  lemma {:induction false} QuantityForSnoc(init: seq<StockLine>, line: StockLine, id: string)
    ensures QuantityFor(init + [line], id) == QuantityFor(init, id) + (if line.productId == id then line.quantity else 0)
  {
    assert (init + [line])[..|init|] == init;
  }

  /** A line whose product is not found refuses the batch. */
  lemma {:induction false} DebitLineMissing(catalog: seq<ProductRecord>, init: seq<StockLine>, line: StockLine)
    requires line.productId !in Ids(catalog)
    ensures !DebitAccepted(catalog, init + [line])
  {
    assert (init + [line])[|init|] == line;
  }

  /** A line the product's debit refuses refuses the batch. */
  lemma {:induction false} DebitLineRefused(catalog: seq<ProductRecord>, init: seq<StockLine>, line: StockLine, k: nat)
    requires DebitAccepted(catalog, init)
    requires k < |catalog| && FindIndex(Ids(catalog), line.productId) == Some(k)
    requires line.quantity <= 0 || catalog[k].stock - QuantityFor(init, line.productId) < line.quantity
    ensures !DebitAccepted(catalog, init + [line])
  {
    var lines := init + [line];
    assert lines[|init|] == line;
    if line.quantity > 0 {
      assert forall i :: 0 <= i < |init| ==> init[i] == lines[i];
      QuantityForNonNegative(init, line.productId);
      QuantityForSnoc(init, line, line.productId);
      assert FirstOfId(Ids(catalog), k);
    }
  }

  /** Debiting the first product with the line's id extends the closed form
      by that line. */
  lemma {:induction false} DebitedSnoc(catalog: seq<ProductRecord>, init: seq<StockLine>, line: StockLine, k: nat)
    requires k < |catalog| && FindIndex(Ids(catalog), line.productId) == Some(k)
    ensures var current := Debited(catalog, init);
      current[k := current[k].(stock := current[k].stock - line.quantity)] == Debited(catalog, init + [line])
  {
    var current := Debited(catalog, init);
    var after := current[k := current[k].(stock := current[k].stock - line.quantity)];
    var next := Debited(catalog, init + [line]);
    assert |after| == |catalog| == |next|;
    forall j | 0 <= j < |catalog|
      ensures after[j] == next[j]
    {
      DebitedSnocAt(catalog, init, line, k, j);
    }
    assert after == next;
  }

  /** `DebitedSnoc` at one index. */
  lemma {:induction false} DebitedSnocAt(catalog: seq<ProductRecord>, init: seq<StockLine>, line: StockLine, k: nat, j: nat)
    requires k < |catalog| && FindIndex(Ids(catalog), line.productId) == Some(k)
    requires j < |catalog|
    ensures var current := Debited(catalog, init);
      Debited(catalog, init + [line])[j] ==
        if j == k then current[k].(stock := current[k].stock - line.quantity) else current[j]
  {
    var ids := Ids(catalog);
    QuantityForSnoc(init, line, catalog[j].id);
    if j == k {
      assert FirstOfId(ids, k);
    } else if FirstOfId(ids, j) {
      assert catalog[j].id != line.productId;
    }
  }

  /** A line the product's debit accepts keeps the batch accepted. */
  lemma {:induction false} DebitAcceptedSnoc(catalog: seq<ProductRecord>, init: seq<StockLine>, line: StockLine, k: nat)
    requires DebitAccepted(catalog, init)
    requires k < |catalog| && FindIndex(Ids(catalog), line.productId) == Some(k)
    requires 0 < line.quantity <= catalog[k].stock - QuantityFor(init, line.productId)
    ensures DebitAccepted(catalog, init + [line])
  {
    var lines := init + [line];
    var ids := Ids(catalog);
    forall i | 0 <= i < |lines|
      ensures lines[i].productId in ids && lines[i].quantity > 0
    {
      if i == |init| {
        assert lines[i] == line;
      } else {
        assert lines[i] == init[i];
      }
    }
    forall j | 0 <= j < |catalog| && FirstOfId(ids, j) && QuantityFor(lines, catalog[j].id) > 0
      ensures QuantityFor(lines, catalog[j].id) <= catalog[j].stock
    {
      QuantityForSnoc(init, line, catalog[j].id);
      if j != k {
        assert ids[j] == catalog[j].id;
      }
    }
  }

  /** One more line on top of an accepted prefix. */
  lemma {:induction false} DebitLineStep(catalog: seq<ProductRecord>, init: seq<StockLine>, line: StockLine)
    requires DebitAccepted(catalog, init)
    ensures var lines := init + [line];
      && (DebitLine(Debited(catalog, init), line).result.Success? <==> DebitAccepted(catalog, lines))
      && (DebitLine(Debited(catalog, init), line).result.Success? ==>
            DebitLine(Debited(catalog, init), line).result.value == Debited(catalog, lines))
  {
    match FindIndex(Ids(catalog), line.productId)
    case None =>
      DebitedFind(catalog, init, line.productId);
      DebitLineMisses(Debited(catalog, init), line);
      DebitLineMissing(catalog, init, line);
    case Some(k) =>
      DebitLineFound(catalog, init, line, k);
  }

  /** `DebitLineStep` for a line whose product is at `k`. */
  lemma {:induction false} DebitLineFound(catalog: seq<ProductRecord>, init: seq<StockLine>, line: StockLine, k: nat)
    requires DebitAccepted(catalog, init)
    requires k < |catalog| && FindIndex(Ids(catalog), line.productId) == Some(k)
    ensures var lines := init + [line];
      && (DebitLine(Debited(catalog, init), line).result.Success? <==> DebitAccepted(catalog, lines))
      && (DebitLine(Debited(catalog, init), line).result.Success? ==>
            DebitLine(Debited(catalog, init), line).result.value == Debited(catalog, lines))
  {
    DebitedFind(catalog, init, line.productId);
    DebitLineTakes(Debited(catalog, init), line, k);
    DebitedFirst(catalog, init, line, k);
    if line.quantity <= 0 || catalog[k].stock - QuantityFor(init, line.productId) < line.quantity {
      DebitLineRefused(catalog, init, line, k);
    } else {
      DebitedSnoc(catalog, init, line, k);
      DebitAcceptedSnoc(catalog, init, line, k);
    }
  }

  /** The first product with the line's id has lost what the earlier lines
      asked for it. */
  lemma DebitedFirst(catalog: seq<ProductRecord>, init: seq<StockLine>, line: StockLine, k: nat)
    requires k < |catalog| && FindIndex(Ids(catalog), line.productId) == Some(k)
    ensures Debited(catalog, init)[k].stock == catalog[k].stock - QuantityFor(init, line.productId)
  {
    assert FirstOfId(Ids(catalog), k);
  }

  /** A line for an unknown product is refused. */
  lemma DebitLineMisses(current: seq<ProductRecord>, line: StockLine)
    requires FindIndex(Ids(current), line.productId) == None
    ensures DebitLine(current, line).result.Failure?
  { }

  /** A line for a known product is accepted exactly when its quantity is
      positive and covered, and then takes it from that product. */
  lemma DebitLineTakes(current: seq<ProductRecord>, line: StockLine, k: nat)
    requires FindIndex(Ids(current), line.productId) == Some(k)
    ensures k < |current|
    ensures DebitLine(current, line).result.Success? <==> 0 < line.quantity <= current[k].stock
    ensures DebitLine(current, line).result.Success? ==>
      DebitLine(current, line).result.value == current[k := current[k].(stock := current[k].stock - line.quantity)]
  { }

  /** The closed form of the debit pass: it succeeds exactly when the batch is
      accepted, and then each product has lost exactly what the lines asked
      for it, the catalog keeping its length, order and every other field. */
  lemma {:induction false} DebitRunSpec(catalog: seq<ProductRecord>, lines: seq<StockLine>)
    ensures DebitRun(catalog, lines).result.Success? <==> DebitAccepted(catalog, lines)
    ensures DebitRun(catalog, lines).result.Success? ==> DebitRun(catalog, lines).result.value == Debited(catalog, lines)
    decreases |lines|
  {
    if lines == [] {
      DebitedNone(catalog);
    } else {
      var init, line := lines[..|lines| - 1], lines[|lines| - 1];
      assert lines == init + [line];
      DebitRunSpec(catalog, init);
      if DebitRun(catalog, init).result.Failure? {
        if DebitAccepted(catalog, lines) {
          DebitAcceptedPrefix(catalog, lines);
        }
      } else {
        DebitLineStep(catalog, init, line);
      }
    }
  }

  /** A line naming an unknown product, or asking for a non-positive
      quantity, fails the whole batch wherever it stands in it. */
  lemma {:induction false} BadLineFailsBatch(catalog: seq<ProductRecord>, lines: seq<StockLine>, i: nat)
    requires i < |lines|
    requires lines[i].productId !in Ids(catalog) || lines[i].quantity <= 0
    ensures DebitRun(catalog, lines).result.Failure?
  {
    DebitRunSpec(catalog, lines);
  }

  /** An accepted batch never takes a product below zero. */
  lemma {:induction false} DebitKeepsStockNonNegative(catalog: seq<ProductRecord>, lines: seq<StockLine>)
    requires forall k :: 0 <= k < |catalog| ==> catalog[k].stock >= 0
    requires DebitRun(catalog, lines).result.Success?
    ensures forall k :: 0 <= k < |DebitRun(catalog, lines).result.value| ==> DebitRun(catalog, lines).result.value[k].stock >= 0
  {
    DebitRunSpec(catalog, lines);
  }

  /** At most one alert per line, and the alerts raised by a prefix of the
      batch are raised by the whole batch too: alerts for earlier lines stand
      even when a later line fails. Once a prefix fails, the rest of the batch
      changes nothing. */
  lemma {:induction false} DebitRunPrefix(catalog: seq<ProductRecord>, lines: seq<StockLine>, n: nat)
    requires n <= |lines|
    ensures |DebitRun(catalog, lines).alerts| <= |lines|
    ensures DebitRun(catalog, lines[..n]).alerts <= DebitRun(catalog, lines).alerts
    ensures DebitRun(catalog, lines[..n]).result.Failure? ==> DebitRun(catalog, lines) == DebitRun(catalog, lines[..n])
    decreases |lines|
  {
    if lines == [] {
      assert lines[..n] == lines;
    } else if n == |lines| {
      assert lines[..n] == lines;
      DebitRunPrefix(catalog, lines[..|lines| - 1], 0);
    } else {
      var init := lines[..|lines| - 1];
      assert init[..n] == lines[..n];
      DebitRunPrefix(catalog, init, n);
    }
  }

  // ---------------------------------------------------------------------
  // The credit pass of `restoreStockBatch`

  /** One iteration: an unknown product is skipped; a known one is credited,
      which refuses a non-positive quantity. */
  function CreditLine(current: seq<ProductRecord>, line: StockLine): Result<seq<ProductRecord>, Error>
  {
    match FindIndex(Ids(current), line.productId)
    case None => Success(current)
    case Some(k) =>
      match Credit(current[k], line.quantity)
      case Failure(e) => Failure(e)
      case Success(p) => Success(current[k := p])
  }

  function CreditRun(catalog: seq<ProductRecord>, lines: seq<StockLine>): Result<seq<ProductRecord>, Error>
  {
    if lines == [] then Success(catalog)
    else
      match CreditRun(catalog, lines[..|lines| - 1])
      case Failure(e) => Failure(e)
      case Success(current) => CreditLine(current, lines[|lines| - 1])
  }

  /** The fold over one more line. */
  lemma {:induction false} CreditRunUnfold(catalog: seq<ProductRecord>, lines: seq<StockLine>, i: nat)
    requires i < |lines|
    ensures CreditRun(catalog, lines[..i + 1]) ==
      match CreditRun(catalog, lines[..i])
      case Failure(e) => Failure(e)
      case Success(current) => CreditLine(current, lines[i])
  {
    assert lines[..i + 1][..i] == lines[..i];
  }

  /** The catalog after a successful credit pass, product by product. */
  function Credited(catalog: seq<ProductRecord>, lines: seq<StockLine>): (r: seq<ProductRecord>)
    ensures |r| == |catalog|
  {
    seq(|catalog|, k requires 0 <= k < |catalog| =>
      if FirstOfId(Ids(catalog), k) then catalog[k].(stock := catalog[k].stock + QuantityFor(lines, catalog[k].id))
      else catalog[k])
  }

  /** The closed form keeps every id where it stood. */
  lemma {:induction false} CreditedIds(catalog: seq<ProductRecord>, lines: seq<StockLine>)
    ensures Ids(Credited(catalog, lines)) == Ids(catalog)
  {
    var r := Credited(catalog, lines);
    forall k | 0 <= k < |catalog|
      ensures Ids(r)[k] == Ids(catalog)[k]
    {
      assert r[k].id == catalog[k].id;
    }
  }
  /** Looking an id up in the closed form finds it where the catalog has it. */
  lemma {:induction false} CreditedFind(catalog: seq<ProductRecord>, lines: seq<StockLine>, id: string)
    ensures FindIndex(Ids(Credited(catalog, lines)), id) == FindIndex(Ids(catalog), id)
  {
    CreditedIds(catalog, lines);
  }


  /** When a credit pass succeeds: every line naming a known product has a
      positive quantity. Lines for unknown products are not looked at. */
  predicate CreditAccepted(catalog: seq<ProductRecord>, lines: seq<StockLine>)
  {
    forall i :: 0 <= i < |lines| && lines[i].productId in Ids(catalog) ==> lines[i].quantity > 0
  }

  /** Lines for products not in the catalog count towards no product. */
  lemma {:induction false} QuantityForUnknown(catalog: seq<ProductRecord>, lines: seq<StockLine>, line: StockLine, k: nat)
    requires line.productId !in Ids(catalog) && k < |catalog|
    ensures QuantityFor(lines + [line], catalog[k].id) == QuantityFor(lines, catalog[k].id)
  {
    assert (lines + [line])[..|lines|] == lines;
    assert Ids(catalog)[k] == catalog[k].id;
  }

  lemma {:induction false} CreditLineStep(catalog: seq<ProductRecord>, init: seq<StockLine>, line: StockLine)
    ensures var lines := init + [line];
      && (CreditLine(Credited(catalog, init), line).Success? <==> line.productId in Ids(catalog) ==> line.quantity > 0)
      && (CreditLine(Credited(catalog, init), line).Success? ==>
            CreditLine(Credited(catalog, init), line).value == Credited(catalog, lines))
  {
    match FindIndex(Ids(catalog), line.productId)
    case None => CreditLineUnknown(catalog, init, line);
    case Some(k) => CreditLineKnown(catalog, init, line, k);
  }

  /** `CreditLineStep` for a line whose product is not in the catalog. */
  lemma {:induction false} CreditLineUnknown(catalog: seq<ProductRecord>, init: seq<StockLine>, line: StockLine)
    requires FindIndex(Ids(catalog), line.productId) == None
    ensures CreditLine(Credited(catalog, init), line) == Success(Credited(catalog, init + [line]))
  {
    CreditedFind(catalog, init, line.productId);
    CreditedUnknown(catalog, init, line);
    CreditLineSkips(Credited(catalog, init), line);
  }

  /** `CreditLineStep` for a line whose product stands at `k`. */
  lemma {:induction false} CreditLineKnown(catalog: seq<ProductRecord>, init: seq<StockLine>, line: StockLine, k: nat)
    requires FindIndex(Ids(catalog), line.productId) == Some(k)
    ensures CreditLine(Credited(catalog, init), line).Success? <==> line.quantity > 0
    ensures CreditLine(Credited(catalog, init), line).Success? ==>
      CreditLine(Credited(catalog, init), line).value == Credited(catalog, init + [line])
  {
    CreditedFind(catalog, init, line.productId);
    CreditLineAdds(Credited(catalog, init), line, k);
    if line.quantity > 0 {
      CreditedSnoc(catalog, init, line, k);
    }
  }

  /** A line for an unknown product is skipped. */
  lemma CreditLineSkips(current: seq<ProductRecord>, line: StockLine)
    requires FindIndex(Ids(current), line.productId) == None
    ensures CreditLine(current, line) == Success(current)
  { }

  /** A line for a known product is refused unless its quantity is
      positive, and otherwise adds it to that product. */
  lemma CreditLineAdds(current: seq<ProductRecord>, line: StockLine, k: nat)
    requires FindIndex(Ids(current), line.productId) == Some(k)
    ensures k < |current|
    ensures CreditLine(current, line).Success? <==> line.quantity > 0
    ensures line.quantity > 0 ==>
      CreditLine(current, line).value == current[k := current[k].(stock := current[k].stock + line.quantity)]
  { }

  /** A line for an unknown product leaves the closed form as it was. */
  lemma {:induction false} CreditedUnknown(catalog: seq<ProductRecord>, init: seq<StockLine>, line: StockLine)
    requires line.productId !in Ids(catalog)
    ensures Credited(catalog, init + [line]) == Credited(catalog, init)
  {
    var current := Credited(catalog, init);
    var next := Credited(catalog, init + [line]);
    forall j | 0 <= j < |catalog|
      ensures current[j] == next[j]
    {
      QuantityForUnknown(catalog, init, line, j);
    }
    assert current == next;
  }

  /** Crediting the first product with the line's id extends the closed form
      by that line. */
  lemma {:induction false} CreditedSnoc(catalog: seq<ProductRecord>, init: seq<StockLine>, line: StockLine, k: nat)
    requires k < |catalog| && FindIndex(Ids(catalog), line.productId) == Some(k)
    ensures var current := Credited(catalog, init);
      current[k := current[k].(stock := current[k].stock + line.quantity)] == Credited(catalog, init + [line])
  {
    var current := Credited(catalog, init);
    var after := current[k := current[k].(stock := current[k].stock + line.quantity)];
    var next := Credited(catalog, init + [line]);
    forall j | 0 <= j < |catalog|
      ensures after[j] == next[j]
    {
      CreditedSnocAt(catalog, init, line, k, j);
    }
    assert after == next;
  }

  /** One more credited line at one index of the closed form. */
  lemma {:induction false} CreditedSnocAt(catalog: seq<ProductRecord>, init: seq<StockLine>, line: StockLine, k: nat, j: nat)
    requires k < |catalog| && FindIndex(Ids(catalog), line.productId) == Some(k)
    requires j < |catalog|
    ensures var current := Credited(catalog, init);
      Credited(catalog, init + [line])[j] ==
        if j == k then current[k].(stock := current[k].stock + line.quantity) else current[j]
  {
    var ids := Ids(catalog);
    QuantityForSnoc(init, line, catalog[j].id);
    if j == k {
      assert FirstOfId(ids, k);
    } else if FirstOfId(ids, j) {
      assert catalog[j].id != line.productId;
    }
  }

  /** The closed form of the credit pass: it fails exactly when a line for a
      known product has a non-positive quantity; otherwise each product has
      gained what the lines give it, and unknown products are skipped. */
  lemma {:induction false} CreditRunSpec(catalog: seq<ProductRecord>, lines: seq<StockLine>)
    ensures CreditRun(catalog, lines).Success? <==> CreditAccepted(catalog, lines)
    ensures CreditRun(catalog, lines).Success? ==> CreditRun(catalog, lines).value == Credited(catalog, lines)
    ensures CreditRun(catalog, lines).Failure? ==> CreditRun(catalog, lines).error == InvalidQuantity
    decreases |lines|
  {
    if lines == [] {
      assert forall k :: 0 <= k < |catalog| ==> Credited(catalog, [])[k] == catalog[k];
    } else {
      var init, line := lines[..|lines| - 1], lines[|lines| - 1];
      assert lines == init + [line];
      assert forall i :: 0 <= i < |init| ==> lines[i] == init[i];
      CreditRunSpec(catalog, init);
      if CreditRun(catalog, init).Success? {
        CreditLineStep(catalog, init, line);
        if CreditAccepted(catalog, init) && (line.productId in Ids(catalog) ==> line.quantity > 0) {
          forall i | 0 <= i < |lines| && lines[i].productId in Ids(catalog)
            ensures lines[i].quantity > 0
          {
            if i == |init| { assert lines[i] == line; }
          }
        } else {
          assert lines[|init|] == line;
        }
      }
    }
  }

  /** Once a prefix of the credit pass fails, the rest changes nothing. */
  lemma {:induction false} CreditRunPrefix(catalog: seq<ProductRecord>, lines: seq<StockLine>, n: nat)
    requires n <= |lines|
    requires CreditRun(catalog, lines[..n]).Failure?
    ensures CreditRun(catalog, lines) == CreditRun(catalog, lines[..n])
    decreases |lines|
  {
    if n == |lines| {
      assert lines[..n] == lines;
    } else {
      var init := lines[..|lines| - 1];
      assert init[..n] == lines[..n];
      CreditRunPrefix(catalog, init, n);
    }
  }

  /** Crediting a successful debit's lines restores the catalog exactly: the
      stock a cancelled order gives back is the stock its creation took. */
  lemma {:induction false} DebitThenCreditRestores(catalog: seq<ProductRecord>, lines: seq<StockLine>)
    requires DebitRun(catalog, lines).result.Success?
    ensures CreditRun(DebitRun(catalog, lines).result.value, lines) == Success(catalog)
  {
    DebitRunSpec(catalog, lines);
    var debited := Debited(catalog, lines);
    DebitedIds(catalog, lines);
    CreditRunSpec(debited, lines);
    var credited := Credited(debited, lines);
    forall k | 0 <= k < |catalog|
      ensures credited[k] == catalog[k]
    {
      assert debited[k].id == catalog[k].id;
    }
    assert credited == catalog;
  }
}
