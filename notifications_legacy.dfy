/** The notification bus of the older tree
    (Sistema-de-Ordenes/src/infrastructure/websocket/NotificationService.ts).
    It differs from the newer one in one respect: reading a log that does not
    parse throws instead of yielding an empty log, so `emit` and `markAsRead`
    throw too and leave the stored log as it was. */
module LegacyNotifications {
  import opened Base
  import opened Notifications

  class LegacyNotificationService {
    var listeners: map<NotificationKind, seq<ListenerId>>
    var storage: StoredLog
    var nextId: nat
    ghost var emitted: seq<Notification>
    ghost var deliveries: seq<Delivery<Notification>>

    /** The counter starts above every id of a readable saved log. */
    constructor(storage: StoredLog)
      ensures this.storage == storage && listeners == map[]
      ensures emitted == [] && deliveries == []
      ensures storage.Entries? ==> nextId == IdBound(storage.entries)
      ensures FreshIds()
    {
      this.storage := storage;
      listeners := map[];
      nextId := IdBound(ReadLog(storage));
      emitted := [];
      deliveries := [];
    }

    /** No event of a readable stored log has an id the counter has yet to
        hand out. */
    predicate FreshIds()
      reads this
    {
      storage.Entries? ==> IdsBelow(storage.entries, nextId)
    }

    /** `getHistory()`: nothing when nothing is stored; the `JSON.parse` of a
        corrupt log throws. */
    function GetHistory(): (h: Result<seq<Notification>, Error>)
      reads this
      ensures storage.Missing? ==> h == Success([])
      ensures storage.Unparsable? <==> h == Failure(UnreadableStorage)
      ensures storage.Entries? ==> h == Success(storage.entries)
    {
      match storage
      case Missing => Success([])
      case Unparsable => Failure(UnreadableStorage)
      case Entries(entries) => Success(entries)
    }

    method SaveToStorage(n: Notification) returns (r: Outcome<Error>)
      modifies this`storage
      ensures r.Pass? <==> !old(storage).Unparsable?
      ensures r.Pass? ==> storage == Entries([n] + old(GetHistory()).value)
      ensures r.Fail? ==> r.error == UnreadableStorage && storage == old(storage)
      ensures old(FreshIds()) && n.id < nextId ==> FreshIds()
    {
      var current := GetHistory();
      if current.Failure? {
        return Fail(current.error);
      }
      storage := Entries([n] + current.value);
      r := Pass;
    }

    method MarkAsRead(id: nat) returns (r: Outcome<Error>)
      modifies this`storage
      ensures r.Pass? <==> !old(storage).Unparsable?
      ensures r.Pass? ==> storage == Entries(MarkRead(old(GetHistory()).value, id))
      ensures r.Fail? ==> storage == old(storage)
      ensures old(FreshIds()) ==> FreshIds()
    {
      var current := GetHistory();
      if current.Failure? {
        return Fail(current.error);
      }
      if FreshIds() {
        MarkReadIdsBelow(current.value, id, nextId);
      }
      storage := Entries(MarkRead(current.value, id));
      r := Pass;
    }

    method On(kind: NotificationKind, callback: ListenerId)
      modifies this`listeners
      ensures listeners == old(listeners)[kind := ListenersOf(old(listeners), kind) + [callback]]
    {
      if kind !in listeners {
        listeners := listeners[kind := []];
      }
      listeners := listeners[kind := listeners[kind] + [callback]];
    }

    method Off(kind: NotificationKind, callback: ListenerId)
      modifies this`listeners
      ensures kind in old(listeners) ==> listeners == old(listeners)[kind := Without(old(listeners)[kind], callback)]
      ensures kind !in old(listeners) ==> listeners == old(listeners)
      ensures callback !in ListenersOf(listeners, kind)
    {
      if kind in listeners {
        listeners := listeners[kind := Without(listeners[kind], callback)];
        WithoutMembership(old(listeners)[kind], callback);
      }
    }

    /** `emit(kind, {message, productId})`: when the stored log cannot be
        read the call throws before any listener runs. */
    method Emit(kind: NotificationKind, message: string, productId: string, now: int) returns (r: Outcome<Error>)
      modifies this`storage, this`nextId, this`emitted, this`deliveries
      ensures r.Pass? <==> !old(storage).Unparsable?
      ensures r.Pass? ==>
        var n := Notification(old(nextId), kind, message, productId, now, false);
        && emitted == old(emitted) + [n]
        && storage == Entries([n] + old(GetHistory()).value)
        && deliveries == old(deliveries) + Broadcast(ListenersOf(listeners, kind), n)
      ensures r.Fail? ==>
        r.error == UnreadableStorage && storage == old(storage) && emitted == old(emitted) && deliveries == old(deliveries)
      ensures nextId == old(nextId) + 1
      ensures old(FreshIds()) ==>
        && FreshIds()
        && (old(storage).Entries? ==> forall e :: e in old(storage).entries ==> e.id != old(nextId))
    {
      var n := Notification(nextId, kind, message, productId, now, false);
      nextId := nextId + 1;
      r := SaveToStorage(n);
      if r.Fail? {
        return;
      }
      emitted := emitted + [n];
      var callbacks := ListenersOf(listeners, kind);
      var i := 0;
      while i < |callbacks|
        invariant 0 <= i <= |callbacks|
        invariant deliveries == old(deliveries) + Broadcast(callbacks[..i], n)
        modifies this`deliveries
      {
        assert callbacks[..i + 1][..i] == callbacks[..i];
        deliveries := deliveries + [Delivery(callbacks[i], n)];
        i := i + 1;
      }
      assert callbacks[..i] == callbacks;
    }
  }
}
