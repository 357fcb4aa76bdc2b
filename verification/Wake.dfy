/** The per-(provider, session) event store as values: what each operation of
    internal/wake/store.go makes of one session, and of the whole store. */
module Wake {
  import opened Common

  const MAX_EVENT_HISTORY: nat := 500

  datatype LifecycleStatus = Idle | Running | LifecycleCompleted | LifecycleFailed | Paused | WaitingApproval | Crashed

  datatype Lifecycle = Lifecycle(status: LifecycleStatus, updatedAt: string, reason: string)

  datatype EventStatus = Pending | Completed | Failed

  /** `payload` is the raw event; the empty string stands for no payload. */
  datatype EventRecord = EventRecord(
    eventId: string,
    deliveryId: string,
    status: EventStatus,
    receivedAt: string,
    updatedAt: string,
    payload: string)

  datatype Session = Session(
    key: Key,
    createdAt: string,
    lifecycle: Lifecycle,
    events: seq<EventRecord>,
    permissions: seq<string>)

  datatype StoreError = MissingIds | UnsupportedStatus | NoSession | NotRecorded

  // ------------------------------------------------------------- one session

  function NewSession(key: Key, now: string): Session {
    Session(key, now, Lifecycle(Idle, now, ""), [], [])
  }

  predicate Gated(s: Session) {
    s.lifecycle.status.Paused? || s.lifecycle.status.Crashed?
  }

  /** The first record of event `id`, or |events| when there is none. */
  function IndexOf(events: seq<EventRecord>, id: string): (i: nat)
    ensures i <= |events|
    ensures i < |events| ==> events[i].eventId == id
    ensures forall j :: 0 <= j < i ==> events[j].eventId != id
  {
    if events == [] || events[0].eventId == id then 0 else 1 + IndexOf(events[1..], id)
  }

  /** The newest records, at most MAX_EVENT_HISTORY of them. */
  function Newest<T>(items: seq<T>): (r: seq<T>)
    ensures |r| <= MAX_EVENT_HISTORY
    ensures |items| <= MAX_EVENT_HISTORY ==> r == items
  {
    if |items| > MAX_EVENT_HISTORY then items[|items| - MAX_EVENT_HISTORY..] else items
  }

  function Retry(r: EventRecord, deliveryId: string, payload: string, now: string): EventRecord {
    r.(status := Pending, deliveryId := Trim(deliveryId), updatedAt := now, payload := payload)
  }

  function NewRecord(eventId: string, deliveryId: string, payload: string, now: string): EventRecord {
    EventRecord(eventId, Trim(deliveryId), Pending, now, now, payload)
  }

  function Close(r: EventRecord, status: EventStatus, now: string): EventRecord {
    r.(status := status, updatedAt := now, payload := "")
  }

  predicate IsDuplicate(s: Session, eventId: string) {
    var i := IndexOf(s.events, eventId);
    i < |s.events| && s.events[i].status.Completed?
  }

  /** What RecordDelivery makes of the session; `eventId` is already trimmed. */
  function Recorded(s: Session, eventId: string, deliveryId: string, payload: string, now: string): Session {
    var i := IndexOf(s.events, eventId);
    if IsDuplicate(s, eventId) then s
    else if i < |s.events| then
      s.(events := s.events[i := Retry(s.events[i], deliveryId, payload, now)],
         lifecycle := if Gated(s) then s.lifecycle else Lifecycle(Running, now, "retrying event " + eventId))
    else
      s.(events := Newest(s.events + [NewRecord(eventId, deliveryId, payload, now)]),
         lifecycle := if Gated(s) then s.lifecycle else Lifecycle(Running, now, "processing event " + eventId))
  }

  /** What CompleteEvent makes of the session when it holds the event. */
  function Closed(s: Session, eventId: string, status: EventStatus, now: string): Session {
    var i := IndexOf(s.events, eventId);
    if i == |s.events| then s
    else
      s.(events := s.events[i := Close(s.events[i], status, now)],
         lifecycle := if status.Failed? then Lifecycle(LifecycleFailed, now, "event " + eventId + " failed")
                      else Lifecycle(Idle, now, ""))
  }

  // ------------------------------------------------------------- whole store

  type Store = seq<Session>

  /** The first session with this key, or |store| when there is none. */
  function Find(store: Store, key: Key): (i: nat)
    ensures i <= |store|
    ensures i < |store| ==> store[i].key == key
    ensures forall j :: 0 <= j < i ==> store[j].key != key
  {
    if store == [] || store[0].key == key then 0 else 1 + Find(store[1..], key)
  }

  function Lookup(store: Store, key: Key): Option<Session> {
    var i := Find(store, key);
    if i < |store| then Some(store[i]) else None
  }

  /** Replaces the session with the same key, or appends it. */
  function Put(store: Store, s: Session): Store {
    var i := Find(store, s.key);
    if i < |store| then store[i := s] else store + [s]
  }

  /** The stored session, or a new idle one. */
  function Ensured(store: Store, key: Key, now: string): (s: Session)
    ensures s.key == key
  {
    match Lookup(store, key)
    case Some(s) => s
    case None => NewSession(key, now)
  }

  function RecordDelivery(store: Store, key: Key, eventId: string, deliveryId: string, payload: string, now: string)
    : Result<(Store, Session, bool), StoreError>
  {
    var k, e := TrimKey(key), Trim(eventId);
    if k.provider == "" || k.session == "" || e == "" then Err(MissingIds)
    else
      var s := Ensured(store, k, now);
      var r := Recorded(s, e, deliveryId, payload, now);
      Ok((Put(store, r), r, IsDuplicate(s, e)))
  }

  function CompleteEvent(store: Store, key: Key, eventId: string, status: EventStatus, now: string)
    : Result<(Store, Session), StoreError>
  {
    if status.Pending? then Err(UnsupportedStatus)
    else match Lookup(store, key)
      case None => Err(NoSession)
      case Some(s) =>
        if IndexOf(s.events, eventId) == |s.events| then Err(NotRecorded)
        else var r := Closed(s, eventId, status, now); Ok((Put(store, r), r))
  }

  function WithLifecycle(store: Store, key: Key, status: LifecycleStatus, reason: string, now: string): Store {
    Put(store, Ensured(store, key, now).(lifecycle := Lifecycle(status, now, Trim(reason))))
  }

  function Pause(store: Store, key: Key, reason: string, now: string): Store {
    WithLifecycle(store, key, Paused, reason, now)
  }

  function MarkCrashed(store: Store, key: Key, reason: string, now: string): Store {
    WithLifecycle(store, key, Crashed, reason, now)
  }

  function Resume(store: Store, key: Key, now: string): Result<(Store, Session), StoreError> {
    match Lookup(store, key)
    case None => Err(NoSession)
    case Some(s) => var r := s.(lifecycle := Lifecycle(Idle, now, "")); Ok((Put(store, r), r))
  }

  function SetPermissions(store: Store, key: Key, permissions: seq<string>, now: string): Store {
    Put(store, Ensured(store, key, now).(permissions := permissions))
  }

  function PendingEvents(events: seq<EventRecord>): seq<EventRecord> {
    if events == [] then []
    else (if events[0].status.Pending? then [events[0]] else []) + PendingEvents(events[1..])
  }

  // ---------------------------------------------------------- look-up lemmas

  lemma FindIsFirst(store: Store, key: Key, i: nat)
    requires i < |store| && store[i].key == key
    requires forall j :: 0 <= j < i ==> store[j].key != key
    ensures Find(store, key) == i
  {
  }

  lemma FindAbsent(store: Store, key: Key)
    requires forall j :: 0 <= j < |store| ==> store[j].key != key
    ensures Find(store, key) == |store|
  {
  }

  /** Put changes what is stored under its own key and nothing else. */
  lemma LookupPut(store: Store, s: Session, k: Key)
    ensures Lookup(Put(store, s), k) == if k == s.key then Some(s) else Lookup(store, k)
  {
    var i, f, after := Find(store, s.key), Find(store, k), Put(store, s);
    if k == s.key {
      FindIsFirst(after, k, i);
    } else if f < |store| {
      FindIsFirst(after, k, f);
    } else {
      FindAbsent(after, k);
    }
  }

  lemma IndexOfIs(events: seq<EventRecord>, id: string, i: nat)
    requires i < |events| && events[i].eventId == id
    requires forall j :: 0 <= j < i ==> events[j].eventId != id
    ensures IndexOf(events, id) == i
  {
  }

  lemma IndexOfAbsent(events: seq<EventRecord>, id: string)
    requires forall j :: 0 <= j < |events| ==> events[j].eventId != id
    ensures IndexOf(events, id) == |events|
  {
  }

  ghost predicate DistinctIds(events: seq<EventRecord>) {
    forall i, j :: 0 <= i < j < |events| ==> events[i].eventId != events[j].eventId
  }
}
