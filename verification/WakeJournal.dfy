/** The bounded per-session history against the log it would be without bounds. */
module WakeJournal {
  import opened Common
  import opened Wake
  import opened WakeHistory

  /** The position of event `id` among the newest records of a log, or |log|. */
  function InWindow(log: seq<EventRecord>, id: string): (i: nat)
    ensures i <= |log|
    ensures i < |log| ==> log[i].eventId == id && |log| - i <= MAX_EVENT_HISTORY
    ensures i == |log| ==> forall j :: 0 <= j < |log| && |log| - j <= MAX_EVENT_HISTORY ==> log[j].eventId != id
  {
    var w := |log| - |Newest(log)|;
    var i := IndexOf(log[w..], id);
    assert i == |log[w..]| ==> forall j :: w <= j < |log| ==> log[j].eventId != id by { NotAfter(log, w, id); }
    w + i
  }

  lemma NotAfter(log: seq<EventRecord>, w: nat, id: string)
    requires w <= |log|
    ensures IndexOf(log[w..], id) == |log[w..]| ==> forall j :: w <= j < |log| ==> log[j].eventId != id
  {
    forall j | w <= j < |log| && IndexOf(log[w..], id) == |log[w..]| ensures log[j].eventId != id {
      assert log[j] == log[w..][j - w];
    }
  }

  /** The same operation on a log that never forgets: a record leaves the
      window of the newest 500, but it stays in the log as it was. */
  function Journaled(log: seq<EventRecord>, op: Op): seq<EventRecord> {
    match op
    case Deliver(k, e, d, p, now) =>
      var i := InWindow(log, Trim(e));
      if TrimKey(k).provider == "" || TrimKey(k).session == "" || Trim(e) == "" then log
      else if i == |log| then log + [NewRecord(Trim(e), d, p, now)]
      else if log[i].status.Completed? then log
      else log[i := Retry(log[i], d, p, now)]
    case Finish(_, e, status, now) =>
      var i := InWindow(log, e);
      if status.Pending? || i == |log| then log else log[i := Close(log[i], status, now)]
    case _ => log
  }

  /** Every record that was ever appended for session `k`. */
  function Journal(ops: seq<Op>, k: Key): (log: seq<EventRecord>) {
    if ops == [] then []
    else
      var last := ops[|ops| - 1];
      var before := Journal(ops[..|ops| - 1], k);
      if Target(last) == k then Journaled(before, last) else before
  }

  function Events(s: Option<Session>): seq<EventRecord> {
    if s.Some? then s.value.events else []
  }

  lemma JournalStep(ops: seq<Op>, op: Op, k: Key)
    ensures Journal(ops + [op], k) == if Target(op) == k then Journaled(Journal(ops, k), op) else Journal(ops, k)
    ensures Replay(ops + [op]) == Apply(Replay(ops), op)
  {
    assert (ops + [op])[..|ops|] == ops;
  }

  lemma WindowMatches(log: seq<EventRecord>, id: string)
    ensures var w := |log| - |Newest(log)|;
            InWindow(log, id) == w + IndexOf(Newest(log), id)
  {
    var w := |log| - |Newest(log)|;
    assert log[w..] == Newest(log);
  }

  lemma NewestUpdate(log: seq<EventRecord>, i: nat, r: EventRecord)
    requires |log| - |Newest(log)| <= i < |log|
    ensures Newest(log[i := r]) == Newest(log)[i - (|log| - |Newest(log)|) := r]
  {
  }

  lemma NewestAppend(log: seq<EventRecord>, r: EventRecord)
    ensures Newest(log + [r]) == Newest(Newest(log) + [r])
  {
  }

  lemma DeliveredEvents(s: Session, log: seq<EventRecord>, e: string, d: string, p: string, now: string)
    requires s.events == Newest(log)
    ensures var i := InWindow(log, e);
            Recorded(s, e, d, p, now).events
            == Newest(if i == |log| then log + [NewRecord(e, d, p, now)]
                      else if log[i].status.Completed? then log else log[i := Retry(log[i], d, p, now)])
  {
    WindowMatches(log, e);
    var i := InWindow(log, e);
    if i < |log| {
      NewestIs(log, i);
      NewestUpdate(log, i, Retry(log[i], d, p, now));
    } else {
      NewestAppend(log, NewRecord(e, d, p, now));
    }
  }

  lemma NewestIs(log: seq<EventRecord>, i: nat)
    requires |log| - |Newest(log)| <= i < |log|
    ensures Newest(log)[i - (|log| - |Newest(log)|)] == log[i]
  {
  }

  lemma FinishedEvents(s: Session, log: seq<EventRecord>, e: string, status: EventStatus, now: string)
    requires s.events == Newest(log)
    ensures var i := InWindow(log, e);
            Closed(s, e, status, now).events
            == Newest(if i == |log| then log else log[i := Close(log[i], status, now)])
  {
    WindowMatches(log, e);
    var i := InWindow(log, e);
    if i < |log| {
      assert log[i] == Newest(log)[i - (|log| - |Newest(log)|)];
      NewestUpdate(log, i, Close(log[i], status, now));
    }
  }

  lemma WrittenEvents(here: Option<Session>, op: Op, log: seq<EventRecord>)
    requires Holds(here, Target(op))
    requires Events(here) == Newest(log)
    ensures var r := Written(here, op);
            Newest(Journaled(log, op)) == if r.Some? then r.value.events else Events(here)
  {
    match op
    case Deliver(_, e, d, p, now) =>
      DeliveredEvents(if here.Some? then here.value else NewSession(Target(op), now), log, Trim(e), d, p, now);
    case Finish(_, e, status, now) =>
      WindowMatches(log, e);
      if here.Some? { FinishedEvents(here.value, log, e, status, now); }
    case _ =>
  }

  /** Refinement: after any history, a session's records are exactly the newest
      min(n, 500) of the n records its unbounded journal holds. */
  lemma {:induction false} BoundedHistoryRefinesJournal(ops: seq<Op>, k: Key)
    ensures Events(Lookup(Replay(ops), k)) == Newest(Journal(ops, k))
  {
    if ops != [] {
      var before, last := ops[..|ops| - 1], ops[|ops| - 1];
      BoundedHistoryRefinesJournal(before, k);
      ApplyIsLocal(Replay(before), last, k);
      if Target(last) == k {
        var here := Lookup(Replay(before), k);
        WrittenEvents(here, last, Journal(before, k));
        EffectIsWritten(here, last);
      }
    }
  }

  lemma EffectIsWritten(here: Option<Session>, op: Op)
    requires Holds(here, Target(op))
    ensures var r := Written(here, op);
            Effect(here, op) == if r.Some? then r else here
  {
    var one := if here.Some? then [here.value] else [];
    assert Lookup(one, Target(op)) == here;
    ApplyIsPut(one, op);
    var r := Written(here, op);
    if r.Some? { LookupPut(one, r.value, Target(op)); }
  }

  // --------------------------------------------------- what the journal keeps

  /** The payload of the last delivery of event `e` for session `k`. */
  function LatestPayload(ops: seq<Op>, k: Key, e: string): Option<string> {
    if ops == [] then None
    else
      var last := ops[|ops| - 1];
      if last.Deliver? && Target(last) == k && Trim(last.eventId) == e then Some(last.payload)
      else LatestPayload(ops[..|ops| - 1], k, e)
  }

  /** An event is appended again only after 500 other appends. */
  ghost predicate SpacedApart(log: seq<EventRecord>) {
    forall i, j :: 0 <= i < j < |log| && log[i].eventId == log[j].eventId ==> j - i > MAX_EVENT_HISTORY
  }

  ghost predicate PayloadsKept(ops: seq<Op>, k: Key, log: seq<EventRecord>) {
    forall i :: 0 <= i < |log| ==>
      && log[i].eventId == Trim(log[i].eventId) != ""
      && (!log[i].status.Pending? ==> log[i].payload == "")
      && (log[i].status.Pending? && |log| - i <= MAX_EVENT_HISTORY ==>
            LatestPayload(ops, k, log[i].eventId) == Some(log[i].payload))
  }

  /** Keys under which RecordDelivery stores: trimmed and not empty. */
  predicate Usable(k: Key) {
    TrimKey(k) == k && k.provider != "" && k.session != ""
  }

  lemma {:induction false} JournalKeeps(ops: seq<Op>, k: Key)
    ensures SpacedApart(Journal(ops, k))
    ensures PayloadsKept(ops, k, Journal(ops, k))
    ensures Journal(ops, k) != [] ==> Usable(k)
  {
    if ops != [] {
      var before, last := ops[..|ops| - 1], ops[|ops| - 1];
      JournalKeeps(before, k);
      assert ops == before + [last];
      if Target(last) == k {
        JournaledKeeps(before, last, k, Journal(before, k));
        UsableAfter(Journal(before, k), last, k);
      } else {
        LatestElsewhere(before, last, k);
      }
    }
  }

  lemma UsableAfter(log: seq<EventRecord>, op: Op, k: Key)
    requires Target(op) == k && (log != [] ==> Usable(k))
    ensures Journaled(log, op) != [] ==> Usable(k)
  {
    if op.Deliver? { TrimKeyIdempotent(op.key); }
  }

  lemma LatestElsewhere(before: seq<Op>, op: Op, k: Key)
    requires Target(op) != k
    ensures forall e :: LatestPayload(before + [op], k, e) == LatestPayload(before, k, e)
  {
    assert (before + [op])[..|before|] == before;
  }

  lemma JournaledKeeps(before: seq<Op>, op: Op, k: Key, log: seq<EventRecord>)
    requires Target(op) == k && SpacedApart(log) && PayloadsKept(before, k, log)
    requires log != [] ==> Usable(k)
    ensures SpacedApart(Journaled(log, op))
    ensures PayloadsKept(before + [op], k, Journaled(log, op))
  {
    match op
    case Deliver(_, e, d, p, now) =>
      LatestAfterDelivery(before, op, k);
      if Trim(e) == "" || k.provider == "" || k.session == "" {
        assert Journaled(log, op) == log;
      } else {
        DeliverKeeps(before, op, k, log);
      }
    case Finish(_, e, status, now) =>
      OtherKeeps(before, op, k, log);
      var i := InWindow(log, e);
      if !status.Pending? && i < |log| { CloseKeeps(before + [op], k, log, i, status, now); }
    case _ => OtherKeeps(before, op, k, log);
  }

  lemma OtherKeeps(before: seq<Op>, op: Op, k: Key, log: seq<EventRecord>)
    requires !op.Deliver? && PayloadsKept(before, k, log)
    ensures PayloadsKept(before + [op], k, log)
  {
    assert (before + [op])[..|before|] == before;
  }

  lemma CloseKeeps(ops: seq<Op>, k: Key, log: seq<EventRecord>, i: nat, status: EventStatus, now: string)
    requires i < |log| && !status.Pending? && SpacedApart(log) && PayloadsKept(ops, k, log)
    ensures var after := log[i := Close(log[i], status, now)]; SpacedApart(after) && PayloadsKept(ops, k, after)
  {
  }

  lemma LatestAfterDelivery(before: seq<Op>, op: Op, k: Key)
    requires op.Deliver? && Target(op) == k
    ensures forall x :: LatestPayload(before + [op], k, x)
                        == if x == Trim(op.eventId) then Some(op.payload) else LatestPayload(before, k, x)
  {
    assert (before + [op])[..|before|] == before;
  }

  lemma DeliverKeeps(before: seq<Op>, op: Op, k: Key, log: seq<EventRecord>)
    requires op.Deliver? && Target(op) == k && SpacedApart(log) && PayloadsKept(before, k, log)
    requires Trim(op.eventId) != "" && k.provider != "" && k.session != ""
    ensures SpacedApart(Journaled(log, op))
    ensures PayloadsKept(before + [op], k, Journaled(log, op))
  {
    var ops, e := before + [op], Trim(op.eventId);
    LatestAfterDelivery(before, op, k);
    TrimIdempotent(op.eventId);
    var i := InWindow(log, e);
    if i == |log| {
      AppendKeeps(before, ops, k, log, NewRecord(e, op.deliveryId, op.payload, op.now));
    } else {
      OthersMatch(log, i);
      if log[i].status.Completed? {
        CompletedKeeps(before, ops, k, log, i, op.payload);
      } else {
        RetryKeeps(before, ops, k, log, i, Retry(log[i], op.deliveryId, op.payload, op.now));
      }
    }
  }

  lemma CompletedKeeps(before: seq<Op>, ops: seq<Op>, k: Key, log: seq<EventRecord>, i: nat, payload: string)
    requires i < |log| && SpacedApart(log) && PayloadsKept(before, k, log)
    requires log[i].status.Completed?
    requires forall j :: 0 <= j < |log| && j != i && |log| - j <= MAX_EVENT_HISTORY ==> log[j].eventId != log[i].eventId
    requires forall x :: LatestPayload(ops, k, x)
                         == if x == log[i].eventId then Some(payload) else LatestPayload(before, k, x)
    ensures PayloadsKept(ops, k, log)
  {
  }

  /** Inside the window an event has one record. */
  lemma OthersMatch(log: seq<EventRecord>, i: nat)
    requires i < |log| && SpacedApart(log) && |log| - i <= MAX_EVENT_HISTORY
    ensures forall j :: 0 <= j < |log| && j != i && |log| - j <= MAX_EVENT_HISTORY ==>
              log[j].eventId != log[i].eventId
  {
  }

  lemma AppendKeeps(before: seq<Op>, ops: seq<Op>, k: Key, log: seq<EventRecord>, r: EventRecord)
    requires SpacedApart(log) && PayloadsKept(before, k, log)
    requires forall j :: 0 <= j < |log| && |log| - j <= MAX_EVENT_HISTORY ==> log[j].eventId != r.eventId
    requires r.eventId == Trim(r.eventId) != "" && r.status.Pending?
    requires forall x :: LatestPayload(ops, k, x)
                         == if x == r.eventId then Some(r.payload) else LatestPayload(before, k, x)
    ensures SpacedApart(log + [r]) && PayloadsKept(ops, k, log + [r])
  {
    var after := log + [r];
    forall i | 0 <= i < |after|
      ensures after[i].status.Pending? && |after| - i <= MAX_EVENT_HISTORY ==>
                LatestPayload(ops, k, after[i].eventId) == Some(after[i].payload)
    {
      if i < |log| { assert after[i] == log[i]; }
    }
  }

  lemma RetryKeeps(before: seq<Op>, ops: seq<Op>, k: Key, log: seq<EventRecord>, i: nat, r: EventRecord)
    requires i < |log| && SpacedApart(log) && PayloadsKept(before, k, log)
    requires r.eventId == log[i].eventId && r.status.Pending?
    requires forall j :: 0 <= j < |log| && j != i && |log| - j <= MAX_EVENT_HISTORY ==> log[j].eventId != r.eventId
    requires forall x :: LatestPayload(ops, k, x)
                         == if x == r.eventId then Some(r.payload) else LatestPayload(before, k, x)
    ensures SpacedApart(log[i := r]) && PayloadsKept(ops, k, log[i := r])
  {
    var after := log[i := r];
    forall j | 0 <= j < |after|
      ensures after[j].status.Pending? && |after| - j <= MAX_EVENT_HISTORY ==>
                LatestPayload(ops, k, after[j].eventId) == Some(after[j].payload)
    {
      if j != i { assert after[j] == log[j]; }
    }
  }

  /** What a reader of the store finds, after any history: distinct events, no
      payload on finished ones, the latest delivered payload on pending ones. */
  lemma StoredRecords(ops: seq<Op>, k: Key)
    ensures var events := Events(Lookup(Replay(ops), k));
            && |events| <= MAX_EVENT_HISTORY
            && DistinctIds(events)
            && forall i :: 0 <= i < |events| ==>
                 if events[i].status.Pending? then LatestPayload(ops, k, events[i].eventId) == Some(events[i].payload)
                 else events[i].payload == ""
  {
    BoundedHistoryRefinesJournal(ops, k);
    JournalKeeps(ops, k);
    NewestDistinct(Journal(ops, k));
    NewestPayloads(ops, k, Journal(ops, k));
  }

  lemma NewestAt<T>(log: seq<T>)
    ensures forall i :: 0 <= i < |Newest(log)| ==> Newest(log)[i] == log[|log| - |Newest(log)| + i]
  {
  }

  lemma NewestDistinct(log: seq<EventRecord>)
    requires SpacedApart(log)
    ensures DistinctIds(Newest(log))
  {
    NewestAt(log);
  }

  lemma NewestPayloads(ops: seq<Op>, k: Key, log: seq<EventRecord>)
    requires PayloadsKept(ops, k, log)
    ensures forall i :: 0 <= i < |Newest(log)| ==>
              var r := Newest(log)[i];
              if r.status.Pending? then LatestPayload(ops, k, r.eventId) == Some(r.payload) else r.payload == ""
  {
    NewestAt(log);
    var w := |log| - |Newest(log)|;
    forall i | 0 <= i < |Newest(log)|
      ensures var r := Newest(log)[i];
              if r.status.Pending? then LatestPayload(ops, k, r.eventId) == Some(r.payload) else r.payload == ""
    {
      assert Newest(log)[i] == log[w + i];
    }
  }

  // ------------------------------------------- recording, then completing

  /** CompleteEvent does not trim its ids as RecordDelivery does. After a
      delivery that was recorded, the completion with the same ids finds the
      record exactly when those ids were trimmed already. */
  lemma CompletionFindsRecordIffTrimmed(
    ops: seq<Op>, key: Key, eventId: string, deliveryId: string, payload: string, now: string,
    status: EventStatus, later: string)
    requires !status.Pending?
    requires RecordDelivery(Replay(ops), key, eventId, deliveryId, payload, now).Ok?
    ensures var after := RecordDelivery(Replay(ops), key, eventId, deliveryId, payload, now).value.0;
            CompleteEvent(after, key, eventId, status, later).Ok? <==> TrimKey(key) == key && Trim(eventId) == eventId
  {
    var op := Deliver(key, eventId, deliveryId, payload, now);
    var all := ops + [op];
    var after := RecordDelivery(Replay(ops), key, eventId, deliveryId, payload, now).value.0;
    JournalStep(ops, op, key);
    assert after == Replay(all);
    CompletesIff(after, key, eventId, status, later);
    FoundIff(all, key, eventId);
    JournalKeeps(all, key);
    var log := Journal(all, key);
    var i := InWindow(log, eventId);
    if i < |log| {
      assert log[i].eventId == Trim(log[i].eventId);
    }
    if TrimKey(key) == key && Trim(eventId) == eventId {
      DeliveryIsInWindow(Journal(ops, key), op);
    }
  }

  lemma CompletesIff(store: Store, key: Key, eventId: string, status: EventStatus, now: string)
    requires !status.Pending?
    ensures var events := Events(Lookup(store, key));
            CompleteEvent(store, key, eventId, status, now).Ok? <==> IndexOf(events, eventId) < |events|
  {
  }

  lemma FoundIff(ops: seq<Op>, key: Key, eventId: string)
    ensures var events, log := Events(Lookup(Replay(ops), key)), Journal(ops, key);
            IndexOf(events, eventId) < |events| <==> InWindow(log, eventId) < |log|
  {
    BoundedHistoryRefinesJournal(ops, key);
    WindowMatches(Journal(ops, key), eventId);
  }

  lemma DeliveryIsInWindow(log: seq<EventRecord>, op: Op)
    requires op.Deliver? && Target(op).provider != "" && Target(op).session != "" && Trim(op.eventId) != ""
    ensures var after := Journaled(log, op); InWindow(after, Trim(op.eventId)) < |after|
  {
    var e, after := Trim(op.eventId), Journaled(log, op);
    var i := InWindow(log, e);
    var j := if i < |log| then i else |after| - 1;
    assert after[j].eventId == e && |after| - j <= MAX_EVENT_HISTORY;
  }

  /** Entry `i` of the log is this event, completed, and still in the window. */
  ghost predicate CompletedInWindow(log: seq<EventRecord>, e: string, i: int) {
    && 0 <= i < |log| && |log| - i <= MAX_EVENT_HISTORY
    && log[i].eventId == e && log[i].status.Completed?
  }

  /** A delivery counts as a duplicate exactly when its event has a completed
      record and fewer than 500 records were appended after that one. */
  lemma DuplicateIffCompletedInWindow(
    ops: seq<Op>, key: Key, eventId: string, deliveryId: string, payload: string, now: string)
    requires RecordDelivery(Replay(ops), key, eventId, deliveryId, payload, now).Ok?
    ensures RecordDelivery(Replay(ops), key, eventId, deliveryId, payload, now).value.2
            <==> exists i :: CompletedInWindow(Journal(ops, TrimKey(key)), Trim(eventId), i)
  {
    var k, e := TrimKey(key), Trim(eventId);
    DuplicateIs(Replay(ops), key, eventId, deliveryId, payload, now);
    BoundedHistoryRefinesJournal(ops, k);
    JournalIsSpaced(ops, k);
    CompletedIffInWindow(Journal(ops, k), e);
  }

  lemma JournalIsSpaced(ops: seq<Op>, k: Key)
    ensures SpacedApart(Journal(ops, k))
  {
    JournalKeeps(ops, k);
  }

  lemma DuplicateIs(store: Store, key: Key, eventId: string, deliveryId: string, payload: string, now: string)
    requires RecordDelivery(store, key, eventId, deliveryId, payload, now).Ok?
    ensures var events, e := Events(Lookup(store, TrimKey(key))), Trim(eventId);
            RecordDelivery(store, key, eventId, deliveryId, payload, now).value.2
            <==> IndexOf(events, e) < |events| && events[IndexOf(events, e)].status.Completed?
  {
  }

  lemma CompletedIffInWindow(log: seq<EventRecord>, e: string)
    requires SpacedApart(log)
    ensures var q := IndexOf(Newest(log), e);
            q < |Newest(log)| && Newest(log)[q].status.Completed? <==> exists i :: CompletedInWindow(log, e, i)
  {
    WindowMatches(log, e);
    var q := InWindow(log, e);
    if q < |log| {
      OthersMatch(log, q);
      assert log[q] == Newest(log)[q - (|log| - |Newest(log)|)];
      assert log[q].status.Completed? ==> CompletedInWindow(log, e, q);
    }
  }

  /** An untrimmed event id leaves its record pending for ever. */
  lemma UntrimmedEventIsNeverCompleted()
    ensures var after := RecordDelivery([], Key("p", "s"), "e ", "d", "{}", "t").value.0;
            && CompleteEvent(after, Key("p", "s"), "e ", Completed, "t") == Err(NotRecorded)
            && Events(Lookup(after, Key("p", "s"))) == [NewRecord("e", "d", "{}", "t")]
  {
    assert Trim("p") == "p" && Trim("s") == "s" && Trim("d") == "d";
    assert Trim("e ") == "e" by { assert Trim("e ") == Trim("e "[..1]); assert "e "[..1] == "e"; }
  }
}
