/** What each operation of the event store leaves on file, said of the records and
    lifecycles that a reader finds, for every store that a history can lead to. */
module WakeMeaning {
  import opened Common
  import opened Wake
  import opened WakeHistory
  import opened WakeJournal

  ghost predicate OnlyIn(before: Store, after: Store, k: Key) {
    forall j :: j != k ==> Lookup(after, j) == Lookup(before, j)
  }

  /** What a session starts from: the one on file, or an idle one without records. */
  ghost predicate Begins(before: Option<Session>, k: Key, now: string, was: Session) {
    before == Some(was) || (before == None && was == Session(k, now, Lifecycle(Idle, now, ""), [], []))
  }

  ghost predicate Listed(events: seq<EventRecord>, e: string) {
    exists i :: 0 <= i < |events| && events[i].eventId == e
  }

  ghost predicate CompletedOnFile(events: seq<EventRecord>, e: string) {
    exists i :: 0 <= i < |events| && events[i].eventId == e && events[i].status == Completed
  }

  /** Every record of event `e` is written anew, and the others stay as they are. */
  ghost predicate Rewritten(was: seq<EventRecord>, events: seq<EventRecord>, e: string, d: string, p: string,
                            now: string)
  {
    && |events| == |was|
    && forall i :: 0 <= i < |was| ==>
         events[i] == if was[i].eventId == e then EventRecord(e, Trim(d), Pending, was[i].receivedAt, now, p)
                      else was[i]
  }

  /** A new record is last, and a full history of 500 loses its first one. */
  ghost predicate Appended(was: seq<EventRecord>, events: seq<EventRecord>, e: string, d: string, p: string,
                           now: string)
  {
    events == (if |was| < 500 then was else was[1..]) + [EventRecord(e, Trim(d), Pending, now, now, p)]
  }

  /** The session has taken a delivery of event `e` that is to be processed. */
  ghost predicate Taken(was: Session, s: Session, e: string, d: string, p: string, now: string) {
    && s.key == was.key && s.createdAt == was.createdAt && s.permissions == was.permissions
    && (if Listed(was.events, e) then Rewritten(was.events, s.events, e, d, p, now)
        else Appended(was.events, s.events, e, d, p, now))
    && s.lifecycle == if was.lifecycle.status == Paused || was.lifecycle.status == Crashed then was.lifecycle
                      else if Listed(was.events, e) then Lifecycle(Running, now, "retrying event " + e)
                      else Lifecycle(Running, now, "processing event " + e)
  }

  /** Every record of event `e` is closed: it takes the status and loses its payload. */
  ghost predicate ClosedIn(was: seq<EventRecord>, events: seq<EventRecord>, e: string, status: EventStatus,
                           now: string)
  {
    && |events| == |was|
    && forall i :: 0 <= i < |was| ==>
         events[i] == if was[i].eventId == e then EventRecord(e, was[i].deliveryId, status, was[i].receivedAt, now, "")
                      else was[i]
  }

  /** Event `e` has been closed, and the session is idle or failed. */
  ghost predicate Finished(was: Session, s: Session, e: string, status: EventStatus, now: string) {
    && s.key == was.key && s.createdAt == was.createdAt && s.permissions == was.permissions
    && ClosedIn(was.events, s.events, e, status, now)
    && s.lifecycle == if status == Completed then Lifecycle(Idle, now, "")
                      else Lifecycle(LifecycleFailed, now, "event " + e + " failed")
  }

  // ------------------------------------------------------------------- deliveries

  /** A delivery is refused exactly when one of its ids is blank. */
  lemma DeliveryIsRefusedIff(store: Store, key: Key, e: string, d: string, p: string, now: string)
    ensures var r := RecordDelivery(store, key, e, d, p, now);
            && (r.Err? <==> Trim(key.provider) == "" || Trim(key.session) == "" || Trim(e) == "")
            && (r.Err? ==> r.error == MissingIds)
  {
  }

  lemma FoundAt(events: seq<EventRecord>, e: string)
    requires DistinctIds(events)
    ensures IndexOf(events, e) < |events| <==> Listed(events, e)
    ensures forall i :: 0 <= i < |events| ==> (events[i].eventId == e <==> i == IndexOf(events, e))
  {
  }

  lemma RecordedIsTaken(was: Session, e: string, d: string, p: string, now: string)
    requires DistinctIds(was.events) && |was.events| <= 500
    ensures IsDuplicate(was, e) <==> CompletedOnFile(was.events, e)
    ensures var s := Recorded(was, e, d, p, now);
            if CompletedOnFile(was.events, e) then s == was else Taken(was, s, e, d, p, now)
  {
    FoundAt(was.events, e);
  }

  /** What recording a delivery leaves on file under the trimmed ids, after any
      history. It is a duplicate exactly when the event is on file as completed, and
      then the session stays as it was. */
  lemma DeliveryLeaves(ops: seq<Op>, key: Key, e: string, d: string, p: string, now: string) returns (was: Session)
    requires RecordDelivery(Replay(ops), key, e, d, p, now).Ok?
    ensures var k := Key(Trim(key.provider), Trim(key.session));
            var (after, s, duplicate) := RecordDelivery(Replay(ops), key, e, d, p, now).value;
            && OnlyIn(Replay(ops), after, k)
            && Lookup(after, k) == Some(s)
            && Begins(Lookup(Replay(ops), k), k, now, was)
            && (duplicate <==> CompletedOnFile(was.events, Trim(e)))
            && if duplicate then s == was else Taken(was, s, Trim(e), d, p, now)
  {
    var k := TrimKey(key);
    was := Ensured(Replay(ops), k, now);
    StoredRecords(ops, k);
    RecordedIsTaken(was, Trim(e), d, p, now);
    PutIsLocal(Replay(ops), Recorded(was, Trim(e), d, p, now));
  }

  lemma PutIsLocal(store: Store, s: Session)
    ensures Lookup(Put(store, s), s.key) == Some(s) && OnlyIn(store, Put(store, s), s.key)
  {
    forall j ensures Lookup(Put(store, s), j) == if j == s.key then Some(s) else Lookup(store, j) {
      LookupPut(store, s, j);
    }
  }

  // ------------------------------------------------------------------ completions

  lemma ClosedIsFinished(was: Session, e: string, status: EventStatus, now: string)
    requires DistinctIds(was.events) && Listed(was.events, e) && status != Pending
    ensures Finished(was, Closed(was, e, status, now), e, status, now)
  {
    FoundAt(was.events, e);
  }

  /** What completing an event leaves on file, after any history: an error exactly for
      a status that is none, an unknown session, or an event that is not on file. */
  lemma CompletionLeaves(ops: seq<Op>, key: Key, e: string, status: EventStatus, now: string)
    ensures var was, r := Lookup(Replay(ops), key), CompleteEvent(Replay(ops), key, e, status, now);
            if status == Pending then r == Err(UnsupportedStatus)
            else if was == None then r == Err(NoSession)
            else if !Listed(was.value.events, e) then r == Err(NotRecorded)
            else
              && r.Ok? && OnlyIn(Replay(ops), r.value.0, key)
              && Lookup(r.value.0, key) == Some(r.value.1)
              && Finished(was.value, r.value.1, e, status, now)
  {
    var was := Lookup(Replay(ops), key);
    if status != Pending && was.Some? {
      StoredRecords(ops, key);
      FoundAt(was.value.events, e);
      if Listed(was.value.events, e) {
        ClosedIsFinished(was.value, e, status, now);
        PutIsLocal(Replay(ops), Closed(was.value, e, status, now));
      }
    }
  }

  // ----------------------------------------------------------- single-field changes

  /** Pausing and marking as crashed change the lifecycle of one session only, and
      bring the session on file when it is new. */
  lemma GatingLeaves(store: Store, key: Key, reason: string, now: string) returns (was: Session)
    ensures Begins(Lookup(store, key), key, now, was)
    ensures OnlyIn(store, Pause(store, key, reason, now), key)
    ensures OnlyIn(store, MarkCrashed(store, key, reason, now), key)
    ensures Lookup(Pause(store, key, reason, now), key)
            == Some(was.(lifecycle := Lifecycle(Paused, now, Trim(reason))))
    ensures Lookup(MarkCrashed(store, key, reason, now), key)
            == Some(was.(lifecycle := Lifecycle(Crashed, now, Trim(reason))))
  {
    was := Ensured(store, key, now);
    PutIsLocal(store, was.(lifecycle := Lifecycle(Paused, now, Trim(reason))));
    PutIsLocal(store, was.(lifecycle := Lifecycle(Crashed, now, Trim(reason))));
  }

  /** Resuming makes a session idle that is on file, and fails for any other. */
  lemma ResumeLeaves(store: Store, key: Key, now: string)
    ensures var was, r := Lookup(store, key), Resume(store, key, now);
            if was == None then r == Err(NoSession)
            else
              && r.Ok? && OnlyIn(store, r.value.0, key) && Lookup(r.value.0, key) == Some(r.value.1)
              && r.value.1 == was.value.(lifecycle := Lifecycle(Idle, now, ""))
  {
    var was := Lookup(store, key);
    if was.Some? { PutIsLocal(store, was.value.(lifecycle := Lifecycle(Idle, now, ""))); }
  }

  lemma PermissionsLeave(store: Store, key: Key, permissions: seq<string>, now: string) returns (was: Session)
    ensures Begins(Lookup(store, key), key, now, was)
    ensures OnlyIn(store, SetPermissions(store, key, permissions, now), key)
    ensures Lookup(SetPermissions(store, key, permissions, now), key) == Some(was.(permissions := permissions))
  {
    was := Ensured(store, key, now);
    PutIsLocal(store, was.(permissions := permissions));
  }

  // ---------------------------------------------------------------- pending records

  /** `at` are the positions of the pending records, in order. */
  ghost predicate Positions(events: seq<EventRecord>, at: seq<nat>) {
    && (forall i, j :: 0 <= i < j < |at| ==> at[i] < at[j])
    && (forall j :: 0 <= j < |at| ==> at[j] < |events|)
    && (forall i :: 0 <= i < |events| ==> (i in at <==> events[i].status == Pending))
  }

  /** `picked` are the records at these positions. */
  ghost predicate Picks(events: seq<EventRecord>, at: seq<nat>, picked: seq<EventRecord>) {
    |picked| == |at| && forall j :: 0 <= j < |at| ==> at[j] < |events| && picked[j] == events[at[j]]
  }

  /** The pending records are those with that status: each once, in the order in
      which they are on file. */
  lemma {:induction false} PendingAreInOrder(events: seq<EventRecord>) returns (at: seq<nat>)
    ensures Positions(events, at) && Picks(events, at, PendingEvents(events))
  {
    if events == [] {
      at := [];
    } else {
      var rest := PendingAreInOrder(events[1..]);
      var later := Shifted(rest);
      at := (if events[0].status == Pending then [0] else []) + later;
      PositionsCons(events, rest, later);
      PicksCons(events, rest, later, PendingEvents(events[1..]));
    }
  }

  function Shifted(at: seq<nat>): (later: seq<nat>)
    ensures |later| == |at| && forall j :: 0 <= j < |at| ==> later[j] == at[j] + 1
  {
    seq(|at|, j requires 0 <= j < |at| => at[j] + 1)
  }

  lemma PicksCons(events: seq<EventRecord>, rest: seq<nat>, later: seq<nat>, picked: seq<EventRecord>)
    requires events != [] && Picks(events[1..], rest, picked)
    requires |later| == |rest| && forall j :: 0 <= j < |rest| ==> later[j] == rest[j] + 1
    ensures Picks(events, later, picked)
    ensures Picks(events, [0] + later, [events[0]] + picked)
  {
    assert forall j :: 0 <= j < |later| ==> events[later[j]] == events[1..][rest[j]];
  }

  lemma PositionsCons(events: seq<EventRecord>, rest: seq<nat>, later: seq<nat>)
    requires events != [] && Positions(events[1..], rest)
    requires |later| == |rest| && forall j :: 0 <= j < |rest| ==> later[j] == rest[j] + 1
    ensures Positions(events, (if events[0].status == Pending then [0] else []) + later)
  {
    var at := (if events[0].status == Pending then [0] else []) + later;
    forall i | 0 <= i < |events| ensures i in at <==> events[i].status == Pending {
      assert i in at <==> (i == 0 && events[0].status == Pending) || i in later;
      if i > 0 { LaterHolds(rest, later, i); }
    }
  }

  lemma LaterHolds(rest: seq<nat>, later: seq<nat>, i: nat)
    requires i > 0 && |later| == |rest| && forall j :: 0 <= j < |rest| ==> later[j] == rest[j] + 1
    ensures i in later <==> i - 1 in rest
  {
    if i - 1 in rest {
      var j :| 0 <= j < |rest| && rest[j] == i - 1;
      assert later[j] == i;
    }
  }

  // --------------------------------------------------- where a record comes from

  /** The record is what this delivery left, apart from what a completion took since. */
  predicate ComesFrom(op: Op, k: Key, r: EventRecord) {
    && op.Deliver? && Key(Trim(op.key.provider), Trim(op.key.session)) == k
    && r.eventId == Trim(op.eventId) && r.deliveryId == Trim(op.deliveryId)
    && (r.status == Pending ==> r.payload == op.payload && r.updatedAt == op.now)
  }

  ghost predicate WasDelivered(ops: seq<Op>, k: Key, r: EventRecord) {
    exists i :: 0 <= i < |ops| && ComesFrom(ops[i], k, r)
  }

  lemma DeliveredBefore(before: seq<Op>, op: Op, k: Key, r: EventRecord, now: EventRecord)
    requires WasDelivered(before, k, r)
    requires now.eventId == r.eventId && now.deliveryId == r.deliveryId
    requires now.status == Pending ==> now == r
    ensures WasDelivered(before + [op], k, now)
  {
    var i :| 0 <= i < |before| && ComesFrom(before[i], k, r);
    assert ComesFrom((before + [op])[i], k, now);
  }

  /** Every record on file was left by a delivery of its session and event: it has the
      delivery id of that, and while it is pending its payload. */
  lemma {:induction false} RecordsWereDelivered(ops: seq<Op>, k: Key, r: EventRecord)
    requires r in Events(Lookup(Replay(ops), k))
    ensures WasDelivered(ops, k, r)
  {
    if ops != [] {
      var before, op := ops[..|ops| - 1], ops[|ops| - 1];
      assert ops == before + [op];
      var prior := RecordIsOldOrNew(before, op, k, r);
      if prior.Some? {
        RecordsWereDelivered(before, k, prior.value);
        DeliveredBefore(before, op, k, prior.value, r);
      }
    }
  }

  /** One operation leaves a record as it was, closes it, or is the delivery it comes from. */
  lemma RecordIsOldOrNew(before: seq<Op>, op: Op, k: Key, r: EventRecord) returns (prior: Option<EventRecord>)
    requires r in Events(Lookup(Apply(Replay(before), op), k))
    ensures if prior.None? then ComesFrom(op, k, r)
            else
              && prior.value in Events(Lookup(Replay(before), k))
              && r.eventId == prior.value.eventId && r.deliveryId == prior.value.deliveryId
              && (r.status == Pending ==> r == prior.value)
  {
    var store := Replay(before);
    prior := Some(r);
    match op
    case Deliver(_, _, _, _, _) => prior := DeliveredIsOldOrNew(before, op, k, r);
    case Finish(_, _, _, _) => prior := FinishedIsOld(before, op, k, r);
    case DoPause(key, reason, now) => var was := GatingLeaves(store, key, reason, now);
    case DoCrash(key, reason, now) => var was := GatingLeaves(store, key, reason, now);
    case DoResume(key, now) => ResumeLeaves(store, key, now);
    case DoGrant(key, permissions, now) => var was := PermissionsLeave(store, key, permissions, now);
  }

  lemma DeliveredIsOldOrNew(before: seq<Op>, op: Op, k: Key, r: EventRecord) returns (prior: Option<EventRecord>)
    requires op.Deliver? && r in Events(Lookup(Apply(Replay(before), op), k))
    ensures prior == None || prior == Some(r)
    ensures if prior.None? then ComesFrom(op, k, r) else r in Events(Lookup(Replay(before), k))
  {
    var key, e, d, p, now := op.key, op.eventId, op.deliveryId, op.payload, op.now;
    prior := Some(r);
    if r !in Events(Lookup(Replay(before), k)) {
      prior := None;
      var was := DeliveryLeaves(before, key, e, d, p, now);
      var s := RecordDelivery(Replay(before), key, e, d, p, now).value.1;
      var i :| 0 <= i < |s.events| && s.events[i] == r;
    }
  }

  lemma FinishedIsOld(before: seq<Op>, op: Op, k: Key, r: EventRecord) returns (prior: Option<EventRecord>)
    requires op.Finish? && r in Events(Lookup(Apply(Replay(before), op), k))
    ensures prior.Some? && prior.value in Events(Lookup(Replay(before), k))
    ensures r.eventId == prior.value.eventId && r.deliveryId == prior.value.deliveryId
    ensures r.status == Pending ==> r == prior.value
  {
    prior := Some(r);
    CompletionLeaves(before, op.key, op.eventId, op.status, op.now);
    if r !in Events(Lookup(Replay(before), k)) {
      var was, s := Lookup(Replay(before), k).value, Lookup(Apply(Replay(before), op), k).value;
      var i :| 0 <= i < |s.events| && s.events[i] == r;
      prior := Some(was.events[i]);
    }
  }
}
