/** The notification bus of the newer tree
    (src/infrastructure/websocket/NotificationService.ts): per-kind listener
    lists, and a log of alert events kept most recent first in browser
    storage, of which only the read flag ever changes. */
module Notifications {
  import opened Base

  /** `"inventory:low" | "inventory:out"` */
  datatype NotificationKind = InventoryLow | InventoryOut

  /** A full alert event. The id stands for the `crypto.randomUUID()` the
      source draws; the timestamp is in milliseconds. */
  datatype Notification = Notification(
    id: nat, kind: NotificationKind, message: string, productId: string, timestamp: int, read: bool)

  /** What browser storage holds under the key "notifications_log". */
  datatype StoredLog = Missing | Unparsable | Entries(entries: seq<Notification>)

  /** The entries of a stored log; nothing when nothing is stored or what is
      stored does not parse. */
  function ReadLog(stored: StoredLog): seq<Notification>
  {
    match stored
    case Entries(entries) => entries
    case _ => []
  }

  /** Every event in the log has an id below `bound`. */
  predicate IdsBelow(log: seq<Notification>, bound: nat)
  {
    forall e :: e in log ==> e.id < bound
  }

  /** The least id above every id in the log: where a counter standing for
      fresh random ids must start so as not to meet a stored one. */
  function IdBound(log: seq<Notification>): (r: nat)
    ensures IdsBelow(log, r)
    ensures forall b: nat :: IdsBelow(log, b) ==> r <= b
  {
    if log == [] then 0
    else
      var rest := IdBound(log[1..]);
      assert forall e :: e in log ==> e == log[0] || e in log[1..];
      assert forall b: nat :: IdsBelow(log, b) ==> IdsBelow(log[1..], b) && log[0].id < b;
      if log[0].id + 1 > rest then log[0].id + 1 else rest
  }

  /** Marking as read changes no id, so it keeps every id below `bound`. */
  lemma MarkReadIdsBelow(log: seq<Notification>, id: nat, bound: nat)
    requires IdsBelow(log, bound)
    ensures IdsBelow(MarkRead(log, id), bound)
  {
    forall e | e in MarkRead(log, id)
      ensures e.id < bound
    {
      var i :| 0 <= i < |MarkRead(log, id)| && MarkRead(log, id)[i] == e;
      assert log[i] in log;
    }
  }

  /** The log with the read flag set on every entry carrying the id. */
  function MarkRead(log: seq<Notification>, id: nat): seq<Notification>
  {
    seq(|log|, i requires 0 <= i < |log| => if log[i].id == id then log[i].(read := true) else log[i])
  }

  /** Marking as read sets the flag on exactly the entries with that id, and
      keeps the length, the order and every other field. */
  lemma MarkReadEffect(log: seq<Notification>, id: nat)
    ensures |MarkRead(log, id)| == |log|
    ensures forall i :: 0 <= i < |log| && log[i].id == id ==> MarkRead(log, id)[i].read
    ensures forall i :: 0 <= i < |log| && log[i].id != id ==> MarkRead(log, id)[i] == log[i]
    ensures forall i :: 0 <= i < |log| ==> MarkRead(log, id)[i].(read := log[i].read) == log[i]
  {
  }

  /** Marking twice is marking once, and marking an absent id is a no-op. */
  lemma MarkReadIdempotent(log: seq<Notification>, id: nat)
    ensures MarkRead(MarkRead(log, id), id) == MarkRead(log, id)
    ensures (forall i :: 0 <= i < |log| ==> log[i].id != id) ==> MarkRead(log, id) == log
  {
  }

  /** The listeners registered for a kind; none when the kind has no list. */
  function ListenersOf(listeners: map<NotificationKind, seq<ListenerId>>, kind: NotificationKind): seq<ListenerId>
  {
    if kind in listeners then listeners[kind] else []
  }

  /** The log after emitting the events in order, each put in front of the
      previous log by `saveToStorage`. */
  function Logged(log: seq<Notification>, events: seq<Notification>): seq<Notification>
  {
    if events == [] then log
    else [events[|events| - 1]] + Logged(log, events[..|events| - 1])
  }

  /** The log is kept most recent first: after a run of emits the newest
      event leads, the events stand in reverse order of emission, and the
      earlier log follows them untouched. */
  lemma {:induction false} LoggedMostRecentFirst(log: seq<Notification>, events: seq<Notification>)
    ensures |Logged(log, events)| == |events| + |log|
    ensures forall i :: 0 <= i < |events| ==> Logged(log, events)[i] == events[|events| - 1 - i]
    ensures Logged(log, events)[|events|..] == log
  {
    if events != [] {
      var init := events[..|events| - 1];
      LoggedMostRecentFirst(log, init);
      assert forall i :: 1 <= i < |events| ==> Logged(log, events)[i] == Logged(log, init)[i - 1];
      assert Logged(log, events)[|events|..] == Logged(log, init)[|init|..];
    }
  }

  /** Emitting two runs of events one after the other logs them as one run. */
  lemma {:induction false} LoggedConcat(log: seq<Notification>, first: seq<Notification>, second: seq<Notification>)
    ensures Logged(log, first + second) == Logged(Logged(log, first), second)
    decreases |second|
  {
    if second == [] {
      assert first + second == first;
    } else {
      var init := second[..|second| - 1];
      LoggedConcat(log, first, init);
      assert (first + second)[..|first + second| - 1] == first + init;
    }
  }

  /** Every listener call a run of emits makes: each event goes to the
      listeners of its own kind, in registration order, event after event. */
  function Dispatch(listeners: map<NotificationKind, seq<ListenerId>>, events: seq<Notification>): seq<Delivery<Notification>>
  {
    if events == [] then []
    else
      var last := events[|events| - 1];
      Dispatch(listeners, events[..|events| - 1]) + Broadcast(ListenersOf(listeners, last.kind), last)
  }

  /** One more event dispatches to the listeners of its kind, after the rest. */
  lemma {:induction false} DispatchSnoc(listeners: map<NotificationKind, seq<ListenerId>>, events: seq<Notification>, e: Notification)
    ensures Dispatch(listeners, events + [e]) == Dispatch(listeners, events) + Broadcast(ListenersOf(listeners, e.kind), e)
  {
    assert (events + [e])[..|events|] == events;
  }

  /** Two runs of events dispatch as one run. */
  lemma {:induction false} DispatchConcat(listeners: map<NotificationKind, seq<ListenerId>>, first: seq<Notification>, second: seq<Notification>)
    ensures Dispatch(listeners, first + second) == Dispatch(listeners, first) + Dispatch(listeners, second)
    decreases |second|
  {
    if second == [] {
      assert first + second == first;
    } else {
      var init := second[..|second| - 1];
      var last := second[|second| - 1];
      assert second == init + [last];
      assert first + second == (first + init) + [last];
      DispatchConcat(listeners, first, init);
      DispatchSnoc(listeners, first + init, last);
      DispatchSnoc(listeners, init, last);
      AppendAssoc(Dispatch(listeners, first), Dispatch(listeners, init), Broadcast(ListenersOf(listeners, last.kind), last));
    }
  }

  /** A broadcast only calls the listeners it was given, with its payload. */
  lemma {:induction false} BroadcastMembers<S>(listeners: seq<ListenerId>, payload: S, d: Delivery<S>)
    requires d in Broadcast(listeners, payload)
    ensures d.payload == payload && d.listener in listeners
  {
    BroadcastReachesEach(listeners, payload);
    var i :| 0 <= i < |Broadcast(listeners, payload)| && Broadcast(listeners, payload)[i] == d;
  }

  /** No listener hears an event of a kind it did not register for. */
  lemma {:induction false} DispatchByKind(listeners: map<NotificationKind, seq<ListenerId>>, events: seq<Notification>, d: Delivery<Notification>)
    requires d in Dispatch(listeners, events)
    ensures d.payload in events && d.listener in ListenersOf(listeners, d.payload.kind)
  {
    var init, last := events[..|events| - 1], events[|events| - 1];
    if d in Dispatch(listeners, init) {
      DispatchByKind(listeners, init, d);
      assert d.payload in events by {
        var i :| 0 <= i < |init| && init[i] == d.payload;
        assert events[i] == d.payload;
      }
    } else {
      BroadcastMembers(ListenersOf(listeners, last.kind), last, d);
    }
  }

  class NotificationService {
    var listeners: map<NotificationKind, seq<ListenerId>>
    var storage: StoredLog
    /** Source of fresh event ids, standing for `crypto.randomUUID()`. */
    var nextId: nat
    /** Every event this bus has synthesised, oldest first. */
    ghost var emitted: seq<Notification>
    /** Every listener call, in order. */
    ghost var deliveries: seq<Delivery<Notification>>

    /** A bus may start over a log saved by an earlier session: the counter
        starts above every id in it. */
    constructor(storage: StoredLog)
      ensures this.storage == storage && listeners == map[]
      ensures emitted == [] && deliveries == []
      ensures nextId == IdBound(GetHistory()) && FreshIds()
    {
      this.storage := storage;
      listeners := map[];
      nextId := IdBound(ReadLog(storage));
      emitted := [];
      deliveries := [];
    }

    /** No stored event has an id the counter has yet to hand out, so every
        new event's id differs from every stored one. */
    predicate FreshIds()
      reads this
    {
      IdsBelow(GetHistory(), nextId)
    }

    /** `getHistory()`: the stored log, or nothing when nothing is stored or
        what is stored does not parse. */
    function GetHistory(): (h: seq<Notification>)
      reads this
      ensures storage.Entries? ==> h == storage.entries
      ensures storage.Missing? || storage.Unparsable? ==> h == []
    {
      ReadLog(storage)
    }

    /** `saveToStorage(n)`: the new event goes in front of what can be read. */
    method SaveToStorage(n: Notification)
      modifies this`storage
      ensures storage == Entries([n] + old(GetHistory()))
      ensures old(FreshIds()) && n.id < nextId ==> FreshIds()
    {
      var current := GetHistory();
      current := [n] + current;
      storage := Entries(current);
    }

    /** `markAsRead(id)` */
    method MarkAsRead(id: nat)
      modifies this`storage
      ensures storage == Entries(MarkRead(old(GetHistory()), id))
      ensures old(FreshIds()) ==> FreshIds()
    {
      var current := GetHistory();
      if IdsBelow(current, nextId) {
        MarkReadIdsBelow(current, id, nextId);
      }
      storage := Entries(MarkRead(current, id));
    }

    /** `on(kind, callback)`: appended to that kind's list, which is created
        when absent; the other kinds' lists are untouched. */
    method On(kind: NotificationKind, callback: ListenerId)
      modifies this`listeners
      ensures listeners == old(listeners)[kind := ListenersOf(old(listeners), kind) + [callback]]
    {
      if kind !in listeners {
        listeners := listeners[kind := []];
      }
      listeners := listeners[kind := listeners[kind] + [callback]];
    }

    /** `off(kind, callback)`: every registration of that callback for that
        kind goes; the other kinds' lists are untouched. */
    method Off(kind: NotificationKind, callback: ListenerId)
      modifies this`listeners
      ensures kind in old(listeners) ==> listeners == old(listeners)[kind := Without(old(listeners)[kind], callback)]
      ensures kind !in old(listeners) ==> listeners == old(listeners)
      ensures callback !in ListenersOf(listeners, kind)
    {
      if kind in listeners {
        listeners := listeners[kind := Without(listeners[kind], callback)];
        WithoutMembership(old(listeners)[kind], callback);
      }
    }

    /** `emit(kind, {message, productId})`: synthesises an unread event,
        stores it in front of the log, then hands it to the listeners of that
        kind only, in registration order. */
    method Emit(kind: NotificationKind, message: string, productId: string, now: int)
      modifies this`storage, this`nextId, this`emitted, this`deliveries
      ensures var n := Notification(old(nextId), kind, message, productId, now, false);
        && emitted == old(emitted) + [n]
        && storage == Entries([n] + old(GetHistory()))
        && deliveries == old(deliveries) + Broadcast(ListenersOf(listeners, kind), n)
      ensures nextId == old(nextId) + 1
      ensures old(FreshIds()) ==> FreshIds() && forall e :: e in old(GetHistory()) ==> e.id != old(nextId)
    {
      var n := Notification(nextId, kind, message, productId, now, false);
      nextId := nextId + 1;
      emitted := emitted + [n];
      SaveToStorage(n);
      var callbacks := ListenersOf(listeners, kind);
      var i := 0;
      while i < |callbacks|
        invariant 0 <= i <= |callbacks|
        invariant deliveries == old(deliveries) + Broadcast(callbacks[..i], n)
        modifies this`deliveries
      {
        assert callbacks[..i + 1][..i] == callbacks[..i];
        deliveries := deliveries + [Delivery(callbacks[i], n)];
        i := i + 1;
      }
      assert callbacks[..i] == callbacks;
    }
  }

  /** A bus built over a log saved by an earlier session gives its first
      event an id that no saved event has. */
  method EmitAfterReload(saved: seq<Notification>, kind: NotificationKind, message: string, productId: string, now: int)
      returns (bus: NotificationService)
    ensures fresh(bus)
    ensures |bus.GetHistory()| == |saved| + 1 && bus.GetHistory()[1..] == saved
    ensures forall e :: e in saved ==> e.id != bus.GetHistory()[0].id
  {
    bus := new NotificationService(Entries(saved));
    bus.Emit(kind, message, productId, now);
  }
}
