/** Behaviours in which an event is run a second time, or in which a binding that
    shares a stored session pushes another's event off file. */
module DaemonRepeats {
  import opened Common
  import opened Protocol
  import opened Wake
  import opened WakeHistory
  import opened WakeJournal
  import opened Daemon
  import opened DaemonInvariants
  import opened DaemonGate
  import opened DaemonRuns
  import opened DaemonWakes

  // -------------------------------------------------- one delivery, start to end

  /** From a recorded delivery to a successful run. */
  function Running(id: nat, ids: seq<string>): seq<Action> {
    [Authorize(id, Some(ids))] + ([Start(id, "", true)] + ([Return(id, Success)] + []))
  }

  /** The saved completion, and the release of the lock. */
  function Ending(id: nat): seq<Action> {
    [Complete(id, "", true)] + ([Unlock(id)] + [])
  }

  function HasRun(s: State, id: nat, ids: seq<string>): State
    requires id in s.handlers
  {
    var h := s.handlers[id];
    var op := DoGrant(h.key, ids, "");
    s.(handlers := s.handlers[id := h.(phase := Ran(Success))],
       runs := s.runs + [Run(h.key, h.delivery.eventId, ids, Success)],
       store := Apply(s.store, op), ops := s.ops + [op])
  }

  function HasEnded(s: State, id: nat): State
    requires id in s.handlers
  {
    var h := s.handlers[id];
    var op := FinishOp(h, Completed, "");
    s.(handlers := s.handlers[id := h.(phase := Answered(true))], locks := s.locks - {h.key},
       store := Apply(s.store, op), ops := s.ops + [op])
  }

  lemma RunsWell(s: State, id: nat, ids: seq<string>)
    requires InPhase(s, id, (p: Phase) => p.OnFile?)
    ensures Possible(s, Running(id, ids)) && Exec(s, Running(id, ids)) == HasRun(s, id, ids)
  {
    var s1 := Step(s, Authorize(id, Some(ids)));
    var s2 := Step(s1, Start(id, "", true));
    var s3 := Step(s2, Return(id, Success));
    assert s3.handlers == HasRun(s, id, ids).handlers;
    Prepend(s2, Return(id, Success), []);
    Prepend(s1, Start(id, "", true), [Return(id, Success)] + []);
    Prepend(s, Authorize(id, Some(ids)), [Start(id, "", true)] + ([Return(id, Success)] + []));
  }

  lemma EndsWell(s: State, id: nat)
    requires InPhase(s, id, (p: Phase) => p == Ran(Success))
    ensures Possible(s, Ending(id)) && Exec(s, Ending(id)) == HasEnded(s, id)
  {
    var s1 := Step(s, Complete(id, "", true));
    var s2 := Step(s1, Unlock(id));
    assert s2.handlers == HasEnded(s, id).handlers;
    Prepend(s1, Unlock(id), []);
    Prepend(s, Complete(id, "", true), [Unlock(id)] + []);
  }

  /** A whole round: take the delivery up, run it, acknowledge it as completed. */
  function Round(id: nat, k: Key, d: Delivery, ids: seq<string>): seq<Action> {
    TakeUp(id, k, d) + (Running(id, ids) + (Ending(id) + ([Acknowledge(id)] + [])))
  }

  /** The history after the operations of one round. */
  function RoundOps(ops: seq<Op>, k: Key, d: Delivery, ids: seq<string>): seq<Op> {
    ops + [Deliver(k, d.eventId, d.deliveryId, d.payload, "")] + [DoGrant(k, ids, "")]
    + [Finish(k, d.eventId, Completed, "")]
  }

  function ApplyRound(store: Store, k: Key, d: Delivery, ids: seq<string>): Store {
    Apply(Apply(Apply(store, Deliver(k, d.eventId, d.deliveryId, d.payload, "")), DoGrant(k, ids, "")),
          Finish(k, d.eventId, Completed, ""))
  }

  function AfterRound(s: State, k: Key, d: Delivery, ids: seq<string>): State {
    s.(store := ApplyRound(s.store, k, d, ids), ops := RoundOps(s.ops, k, d, ids),
       runs := s.runs + [Run(k, d.eventId, ids, Success)])
  }

  lemma RoundWorks(s: State, id: nat, k: Key, d: Delivery, ids: seq<string>)
    requires Ready(s, id, k) && d.sessionId == k.session && Trim(d.eventId) != ""
    requires !HasCompleted(s.store, TrimKey(k), Trim(d.eventId))
    ensures Possible(s, Round(id, k, d, ids)) && Exec(s, Round(id, k, d, ids)) == AfterRound(s, k, d, ids)
  {
    var s1 := Taken(s, id, k, d);
    var s2 := HasRun(s1, id, ids);
    var s3 := HasEnded(s2, id);
    ReadyTakesUp(s, id, k, d);
    RunsWell(s1, id, ids);
    EndsWell(s2, id);
    Prepend(s3, Acknowledge(id), []);
    Concatenate(s2, Ending(id), [Acknowledge(id)] + []);
    Concatenate(s1, Running(id, ids), Ending(id) + ([Acknowledge(id)] + []));
    Concatenate(s, TakeUp(id, k, d), Running(id, ids) + (Ending(id) + ([Acknowledge(id)] + [])));
    RoundLeaves(s, id, k, d, ids);
  }

  lemma RoundLeaves(s: State, id: nat, k: Key, d: Delivery, ids: seq<string>)
    requires Ready(s, id, k)
    ensures Step(HasEnded(HasRun(Taken(s, id, k, d), id, ids), id), Acknowledge(id)) == AfterRound(s, k, d, ids)
  {
    var t := HasEnded(HasRun(Taken(s, id, k, d), id, ids), id);
    assert Step(t, Acknowledge(id)) == t.(handlers := t.handlers - {id});
    LeavesNoTrace(s.handlers, id, Handler(k, d, OnFile), Handler(k, d, Ran(Success)), Handler(k, d, Answered(true)));
    LeavesNoLock(s.locks, k, id);
  }

  lemma LeavesNoTrace(handlers: map<nat, Handler>, id: nat, a: Handler, b: Handler, c: Handler)
    requires id !in handlers
    ensures handlers[id := a][id := b][id := c] - {id} == handlers
  {
  }

  lemma LeavesNoLock(locks: map<Key, nat>, k: Key, id: nat)
    requires k !in locks
    ensures locks[k := id] - {k} == locks
  {
  }

  /** Recording, running and completing never close an open session. */
  lemma StaysOpen(store: Store, op: Op, k: Key)
    requires op.Deliver? || op.DoGrant? || op.Finish?
    requires !IsGated(store, k)
    ensures !IsGated(Apply(store, op), k)
  {
    ApplyIsLocal(store, op, k);
    if Target(op) == k { EffectIsWritten(Lookup(store, k), op); }
  }

  lemma RoundStaysReady(s: State, id: nat, k: Key, d: Delivery, ids: seq<string>)
    requires Ready(s, id, k)
    ensures Ready(AfterRound(s, k, d, ids), id, k)
  {
    var first, second := Deliver(k, d.eventId, d.deliveryId, d.payload, ""), DoGrant(k, ids, "");
    StaysOpen(s.store, first, TrimKey(k));
    StaysOpen(Apply(s.store, first), second, TrimKey(k));
    StaysOpen(Apply(Apply(s.store, first), second), Finish(k, d.eventId, Completed, ""), TrimKey(k));
  }

  // -------------------------------------------------------------- many rounds

  /** The later log holds the earlier entries' ids, and `n` more, none of them `e`. */
  ghost predicate GrownBy(before: seq<EventRecord>, after: seq<EventRecord>, n: nat, e: string) {
    && |after| == |before| + n
    && (forall i :: 0 <= i < |before| ==> after[i].eventId == before[i].eventId)
    && (forall i :: |before| <= i < |after| ==> after[i].eventId != e)
  }

  lemma RoundGrows(ops: seq<Op>, k: Key, d: Delivery, ids: seq<string>, e: string)
    requires Usable(TrimKey(k)) && Trim(d.eventId) == d.eventId != "" && d.eventId != e
    requires InWindow(Journal(ops, TrimKey(k)), d.eventId) == |Journal(ops, TrimKey(k))|
    ensures GrownBy(Journal(ops, TrimKey(k)), Journal(RoundOps(ops, k, d, ids), TrimKey(k)), 1, e)
  {
    var target := TrimKey(k);
    var first, second := Deliver(k, d.eventId, d.deliveryId, d.payload, ""), DoGrant(k, ids, "");
    var third := Finish(k, d.eventId, Completed, "");
    var log := Journal(ops, target);
    JournalStep(ops, first, target);
    AppendGrows(log, first, e);
    JournalStep(ops + [first], second, target);
    JournalStep(ops + [first] + [second], third, target);
    CloseGrows(log, Journaled(log, first), third, e);
  }

  lemma AppendGrows(log: seq<EventRecord>, op: Op, e: string)
    requires op.Deliver? && Usable(TrimKey(op.key)) && Trim(op.eventId) == op.eventId != "" && op.eventId != e
    requires InWindow(log, op.eventId) == |log|
    ensures GrownBy(log, Journaled(log, op), 1, e)
  {
    assert Journaled(log, op) == log + [NewRecord(op.eventId, op.deliveryId, op.payload, op.now)];
  }

  lemma CloseGrows(before: seq<EventRecord>, log: seq<EventRecord>, op: Op, e: string)
    requires op.Finish? && GrownBy(before, log, 1, e)
    ensures GrownBy(before, Journaled(log, op), 1, e)
  {
  }

  lemma ReplayRound(ops: seq<Op>, k: Key, d: Delivery, ids: seq<string>)
    ensures Replay(RoundOps(ops, k, d, ids)) == ApplyRound(Replay(ops), k, d, ids)
  {
    var first, second := Deliver(k, d.eventId, d.deliveryId, d.payload, ""), DoGrant(k, ids, "");
    ReplaySnoc(ops, first);
    ReplaySnoc(ops + [first], second);
    ReplaySnoc(ops + [first] + [second], Finish(k, d.eventId, Completed, ""));
  }

  /** An event that the session does not hold, that is not `e`, and not among `known`. */
  lemma FreshDelivery(s: State, k: Key, e: string, known: set<string>) returns (d: Delivery)
    requires s.store == Replay(s.ops)
    ensures IsFresh(s, k, d.eventId) && d.eventId != e && d.eventId !in known && d.sessionId == k.session
  {
    var events := Events(Lookup(s.store, TrimKey(k)));
    var unused := FreshEvent(events, known + {e});
    d := Delivery("", unused, "", k.session, "");
    BoundedHistoryRefinesJournal(s.ops, TrimKey(k));
    WindowMatches(Journal(s.ops, TrimKey(k)), unused);
  }

  ghost predicate IsFresh(s: State, k: Key, e: string) {
    && Trim(e) == e != "" && !HasCompleted(s.store, TrimKey(k), e)
    && InWindow(Journal(s.ops, TrimKey(k)), e) == |Journal(s.ops, TrimKey(k))|
  }

  /** What a number of rounds leaves as it was. */
  ghost predicate SameBut(s: State, t: State) {
    t.handlers == s.handlers && t.locks == s.locks && t.bound == s.bound && t.store == Replay(t.ops)
  }

  /** `n` more adapter runs, all of this binding, all successful, none of event `e`. */
  ghost predicate RanMore(before: seq<Run>, after: seq<Run>, k: Key, e: string, n: nat) {
    && |after| == |before| + n && before <= after
    && forall i :: |before| <= i < |after| ==>
         after[i].key == k && after[i].outcome.Success? && Trim(after[i].eventId) != e
  }

  /** `n` deliveries of events other than `e` later: the daemon is as it was, but for
      their records, and ready for the next one. */
  ghost predicate Grown(s: State, t: State, id: nat, k: Key, e: string, n: nat) {
    && Ready(t, id, k)
    && SameBut(s, t)
    && GrownBy(Journal(s.ops, TrimKey(k)), Journal(t.ops, TrimKey(k)), n, e)
  }

  lemma GrownOn(s: State, t: State, u: State, id: nat, k: Key, e: string, m: nat, n: nat)
    requires Grown(s, t, id, k, e, m) && Grown(t, u, id, k, e, n)
    ensures Grown(s, u, id, k, e, m + n)
  {
    GrowsOn(Journal(s.ops, TrimKey(k)), Journal(t.ops, TrimKey(k)), Journal(u.ops, TrimKey(k)), m, n, e);
  }

  /** Each of them was run with success. */
  ghost predicate Brought(s: State, t: State, id: nat, k: Key, e: string, n: nat) {
    Grown(s, t, id, k, e, n) && RanMore(s.runs, t.runs, k, e, n)
  }

  lemma BroughtOn(s: State, t: State, u: State, id: nat, k: Key, e: string, m: nat, n: nat)
    requires Brought(s, t, id, k, e, m) && Brought(t, u, id, k, e, n)
    ensures Brought(s, u, id, k, e, m + n)
  {
    GrownOn(s, t, u, id, k, e, m, n);
    RanOn(s.runs, t.runs, u.runs, k, e, m, n);
  }

  lemma RoundBrings(s: State, id: nat, k: Key, d: Delivery, ids: seq<string>, e: string)
    requires Ready(s, id, k) && s.store == Replay(s.ops)
    requires Trim(d.eventId) == d.eventId != "" && d.eventId != e
    requires InWindow(Journal(s.ops, TrimKey(k)), d.eventId) == |Journal(s.ops, TrimKey(k))|
    ensures Brought(s, AfterRound(s, k, d, ids), id, k, e, 1)
  {
    RoundStaysReady(s, id, k, d, ids);
    RoundGrows(s.ops, k, d, ids, e);
    ReplayRound(s.ops, k, d, ids);
  }

  lemma NothingBrought(s: State, id: nat, k: Key, e: string)
    requires Ready(s, id, k) && s.store == Replay(s.ops)
    ensures Brought(s, s, id, k, e, 0)
  {
  }

  lemma NoneResumesIn(id: nat, k: Key, d: Delivery, ids: seq<string>)
    ensures NoneResumes(Round(id, k, d, ids))
  {
  }

  lemma RanOn(a: seq<Run>, b: seq<Run>, c: seq<Run>, k: Key, e: string, m: nat, n: nat)
    requires RanMore(a, b, k, e, m) && RanMore(b, c, k, e, n)
    ensures RanMore(a, c, k, e, m + n)
  {
  }

  lemma GrowsOn(a: seq<EventRecord>, b: seq<EventRecord>, c: seq<EventRecord>, m: nat, n: nat, e: string)
    requires GrownBy(a, b, m, e) && GrownBy(b, c, n, e)
    ensures GrownBy(a, c, m + n, e)
  {
    forall i | |a| <= i < |c| ensures c[i].eventId != e {
      if i < |b| { assert c[i].eventId == b[i].eventId; }
    }
  }

  // ------------------------------------------------ what a redelivery comes to

  /** An event of which 500 records were appended after the last is not on file. */
  lemma NotHeldAfter(before: seq<Op>, after: seq<Op>, k: Key, e: string)
    requires GrownBy(Journal(before, k), Journal(after, k), MAX_EVENT_HISTORY, e)
    ensures var events := Events(Lookup(Replay(after), k)); IndexOf(events, e) == |events|
  {
    BoundedHistoryRefinesJournal(after, k);
    WindowMatches(Journal(after, k), e);
  }

  /** Taking a delivery up, and getting these ids for it. */
  function UpToStart(id: nat, k: Key, d: Delivery, ids: seq<string>): seq<Action> {
    TakeUp(id, k, d) + ([Authorize(id, Some(ids))] + [])
  }

  lemma UnfinishedGetsToStart(s: State, id: nat, k: Key, d: Delivery, ids: seq<string>)
    requires Ready(s, id, k) && d.sessionId == k.session && Trim(d.eventId) != ""
    requires !HasCompleted(s.store, TrimKey(k), Trim(d.eventId))
    ensures Possible(s, UpToStart(id, k, d, ids)) && NoneResumes(UpToStart(id, k, d, ids))
    ensures AboutToStart(Exec(s, UpToStart(id, k, d, ids)), id, k, d)
  {
    ReadyTakesUp(s, id, k, d);
    Prepend(Taken(s, id, k, d), Authorize(id, Some(ids)), []);
    Concatenate(s, TakeUp(id, k, d), [Authorize(id, Some(ids))] + []);
    NoneResumesToStart(id, k, d, ids);
  }

  lemma NoneResumesToStart(id: nat, k: Key, d: Delivery, ids: seq<string>)
    ensures NoneResumes(UpToStart(id, k, d, ids))
  {
  }

  /** Handler `id` of the binding is about to start the adapter for this delivery. */
  predicate AboutToStart(s: State, id: nat, k: Key, d: Delivery) {
    Enabled(s, Start(id, "", true)) && s.handlers[id].key == k && s.handlers[id].delivery == d
  }

  /** A round without its last step, the acknowledgement. */
  function UpToAnswer(id: nat, k: Key, d: Delivery, ids: seq<string>): seq<Action> {
    TakeUp(id, k, d) + (Running(id, ids) + Ending(id))
  }

  lemma RoundIsAnswered(s: State, id: nat, k: Key, d: Delivery, ids: seq<string>)
    requires Ready(s, id, k) && d.sessionId == k.session && Trim(d.eventId) != ""
    requires !HasCompleted(s.store, TrimKey(k), Trim(d.eventId))
    ensures Possible(s, UpToAnswer(id, k, d, ids))
    ensures Exec(s, UpToAnswer(id, k, d, ids)) == HasEnded(HasRun(Taken(s, id, k, d), id, ids), id)
  {
    var s1 := Taken(s, id, k, d);
    ReadyTakesUp(s, id, k, d);
    RunsWell(s1, id, ids);
    EndsWell(HasRun(s1, id, ids), id);
    Concatenate(s1, Running(id, ids), Ending(id));
    Concatenate(s, TakeUp(id, k, d), Running(id, ids) + Ending(id));
  }

  /** The completion of an untrimmed event finds no record: it is not completed. */
  lemma UntrimmedStaysPending(ops: seq<Op>, k: Key, d: Delivery, ids: seq<string>)
    requires Usable(TrimKey(k)) && Trim(d.eventId) != "" && !(TrimKey(k) == k && Trim(d.eventId) == d.eventId)
    requires !HasCompleted(Replay(ops), TrimKey(k), Trim(d.eventId))
    ensures !HasCompleted(ApplyRound(Replay(ops), k, d, ids), TrimKey(k), Trim(d.eventId))
  {
    var first, second := Deliver(k, d.eventId, d.deliveryId, d.payload, ""), DoGrant(k, ids, "");
    var third := Finish(k, d.eventId, Completed, "");
    var recorded := Apply(Replay(ops), first);
    RecordedIsPending(Replay(ops), first);
    assert !HasCompleted(recorded, TrimKey(k), Trim(d.eventId));
    EventsUntouched(recorded, second, TrimKey(k));
    ReplaySnoc(ops, first);
    ReplaySnoc(ops + [first], second);
    FoundOnlyIfTrimmed(ops + [first] + [second], k, d.eventId);
    UnfoundChangesNothing(Apply(recorded, second), third);
  }

  lemma UnfoundChangesNothing(store: Store, op: Op)
    requires op.Finish?
    requires IndexOf(Events(Lookup(store, op.key)), op.eventId) == |Events(Lookup(store, op.key))|
    ensures Apply(store, op) == store
  {
  }

  /** Taking a delivery up whose event is completed, and leaving at once. */
  function Skipping(id: nat, k: Key, d: Delivery): seq<Action> {
    [Receive(id, k, d)] + ([Lock(id)] + ([Record(id, "", true)] + ([Unlock(id)] + [])))
  }

  /** A delivery of a completed event is answered as completed without a run. */
  lemma SkippedIsAnswered(s: State, id: nat, k: Key, d: Delivery)
    requires id !in s.handlers && k in s.bound && k !in s.locks && Usable(TrimKey(k)) && d.sessionId == k.session
    requires Trim(d.eventId) != "" && HasCompleted(s.store, TrimKey(k), Trim(d.eventId))
    ensures Possible(s, Skipping(id, k, d))
    ensures var t := Exec(s, Skipping(id, k, d));
            && t.runs == s.runs && id in t.handlers && t.handlers[id] == Handler(k, d, Answered(true))
  {
    var s1 := Step(s, Receive(id, k, d));
    var s2 := Step(s1, Lock(id));
    RecordSkips(s2, id);
    var s3 := Step(s2, Record(id, "", true));
    Prepend(s3, Unlock(id), []);
    Prepend(s2, Record(id, "", true), [Unlock(id)] + []);
    Prepend(s1, Lock(id), [Record(id, "", true)] + ([Unlock(id)] + []));
    Prepend(s, Receive(id, k, d), [Lock(id)] + ([Record(id, "", true)] + ([Unlock(id)] + [])));
  }

  lemma RecordSkips(s: State, id: nat)
    requires InPhase(s, id, (p: Phase) => p.Locked?)
    requires var h := s.handlers[id];
             && Usable(TrimKey(h.key)) && Trim(h.delivery.eventId) != ""
             && HasCompleted(s.store, TrimKey(h.key), Trim(h.delivery.eventId))
    ensures var t := RecordOrGate(s, id, "", true);
            t.runs == s.runs && id in t.handlers && t.handlers[id] == s.handlers[id].(phase := Leaving(true))
  {
    var h := s.handlers[id];
    assert Events(Lookup(s.store, TrimKey(h.key))) == Ensured(s.store, TrimKey(h.key), "").events;
  }

  // ---------------------------------------------- what a shared session comes to

  /** Without an authorization: the event is recorded, and nothing else is left. */
  function Refusing(id: nat): seq<Action> {
    [Authorize(id, None)] + ([Deny(id, "", false)] + ([Unlock(id)] + ([Acknowledge(id)] + [])))
  }

  function AfterRefusal(s: State, k: Key, d: Delivery): State {
    var op := Deliver(k, d.eventId, d.deliveryId, d.payload, "");
    s.(store := Apply(s.store, op), ops := s.ops + [op])
  }

  lemma RefusesWell(s: State, id: nat, k: Key, d: Delivery)
    requires Ready(s, id, k)
    ensures Possible(Taken(s, id, k, d), Refusing(id))
    ensures Exec(Taken(s, id, k, d), Refusing(id)) == AfterRefusal(s, k, d)
  {
    var s0 := Taken(s, id, k, d);
    var s1 := Step(s0, Authorize(id, None));
    var s2 := Step(s1, Deny(id, "", false));
    var s3 := Step(s2, Unlock(id));
    Prepend(s3, Acknowledge(id), []);
    Prepend(s2, Unlock(id), [Acknowledge(id)] + []);
    Prepend(s1, Deny(id, "", false), [Unlock(id)] + ([Acknowledge(id)] + []));
    Prepend(s0, Authorize(id, None), [Deny(id, "", false)] + ([Unlock(id)] + ([Acknowledge(id)] + [])));
    assert s3.handlers == s.handlers[id := Handler(k, d, Answered(false))];
    LeavesNoLock(s.locks, k, id);
    assert s3.handlers - {id} == s.handlers;
  }

  /** Recording a new event, whoever runs it, adds one record. */
  lemma RefusalGrows(s: State, id: nat, k: Key, d: Delivery, e: string)
    requires Ready(s, id, k) && s.store == Replay(s.ops)
    requires Trim(d.eventId) == d.eventId != "" && d.eventId != e
    requires InWindow(Journal(s.ops, TrimKey(k)), d.eventId) == |Journal(s.ops, TrimKey(k))|
    ensures Grown(s, AfterRefusal(s, k, d), id, k, e, 1)
  {
    var op := Deliver(k, d.eventId, d.deliveryId, d.payload, "");
    StaysOpen(s.store, op, TrimKey(k));
    JournalStep(s.ops, op, TrimKey(k));
    AppendGrows(Journal(s.ops, TrimKey(k)), op, e);
  }

  lemma OneRefusal(s: State, id: nat, k: Key, e: string) returns (actions: seq<Action>)
    requires Ready(s, id, k) && s.store == Replay(s.ops)
    ensures Possible(s, actions) && Grown(s, Exec(s, actions), id, k, e, 1)
  {
    var d := FreshDelivery(s, k, e, {});
    ReadyTakesUp(s, id, k, d);
    RefusesWell(s, id, k, d);
    actions := TakeUp(id, k, d) + Refusing(id);
    Concatenate(s, TakeUp(id, k, d), Refusing(id));
    RefusalGrows(s, id, k, d, e);
  }

  /** Any number of deliveries of other events can be put on file. */
  lemma {:induction false} Refusals(s: State, id: nat, k: Key, e: string, n: nat) returns (actions: seq<Action>)
    requires Ready(s, id, k) && s.store == Replay(s.ops)
    ensures Possible(s, actions) && Grown(s, Exec(s, actions), id, k, e, n)
    decreases n
  {
    if n == 0 {
      actions := [];
    } else {
      var first := OneRefusal(s, id, k, e);
      var t := Exec(s, first);
      var rest := Refusals(t, id, k, e, n - 1);
      Concatenate(s, first, rest);
      actions := first + rest;
      GrownOn(s, t, Exec(t, rest), id, k, e, 1, n - 1);
    }
  }

  /** Sharing a stored session is what puts an in-flight event at risk: the event
      of every handler of binding `k` is on file as pending, in every reachable
      state, exactly when no other binding has the same trimmed ids. */
  lemma InFlightEventsStayIffAlone(bound: set<Key>, k: Key)
    requires k in bound && Usable(TrimKey(k))
    ensures Alone(bound, k)
            <==> forall s, id :: Reachable(s) && s.bound == bound && InFlightFor(s, id, k) ==>
                   HasPending(s.store, TrimKey(k), Trim(s.handlers[id].delivery.eventId))
  {
    if Alone(bound, k) {
      forall s, id | Reachable(s) && s.bound == bound && InFlightFor(s, id, k)
        ensures HasPending(s.store, TrimKey(k), Trim(s.handlers[id].delivery.eventId))
      {
        ReachableInv(s);
        assert Safe(s, id);
      }
    } else {
      var j :| j in bound && TrimKey(j) == TrimKey(k) && j != k;
      var s, id := SharedSessionEvicts(bound, k, j);
    }
  }

  ghost predicate InFlightFor(s: State, id: nat, k: Key) {
    id in s.handlers && InFlight(s.handlers[id].phase) && s.handlers[id].key == k
  }

  /** While a handler of `k` is in flight, 500 deliveries to the binding `j` that
      shares its stored session evict its event, although none of them is authorized. */
  lemma SharedSessionEvicts(bound: set<Key>, k: Key, j: Key) returns (s: State, id: nat)
    requires k in bound && j in bound && j != k && TrimKey(j) == TrimKey(k) && Usable(TrimKey(k))
    ensures Reachable(s) && s.bound == bound && InFlightFor(s, id, k)
    ensures !HasPending(s.store, TrimKey(k), Trim(s.handlers[id].delivery.eventId))
  {
    id := 0;
    var first := FirstInFlight(bound, k, j);
    var t := Exec(Init(bound), first);
    var e := Trim(t.handlers[0].delivery.eventId);
    var others := Refusals(t, 1, j, e, MAX_EVENT_HISTORY);
    s := Exec(t, others);
    Concatenate(Init(bound), first, others);
    IsReachable(bound, first + others);
    NotHeldAfter(t.ops, s.ops, TrimKey(k), e);
  }

  function FirstDelivery(k: Key): Delivery {
    Delivery("", "x", "", k.session, "")
  }

  lemma FirstInFlight(bound: set<Key>, k: Key, j: Key) returns (actions: seq<Action>)
    requires k in bound && j in bound && j != k && TrimKey(j) == TrimKey(k) && Usable(TrimKey(k))
    ensures Possible(Init(bound), actions)
    ensures Exec(Init(bound), actions) == Taken(Init(bound), 0, k, FirstDelivery(k))
    ensures var t := Exec(Init(bound), actions);
            InFlightFor(t, 0, k) && Ready(t, 1, j) && t.store == Replay(t.ops)
  {
    actions := TakeUp(0, k, FirstDelivery(k));
    ReadyTakesUp(Init(bound), 0, k, FirstDelivery(k));
    var op := Deliver(k, "x", "", "", "");
    ReplaySnoc([], op);
    assert [] + [op] == [op];
    StaysOpen([], op, TrimKey(k));
  }

  lemma IsReachable(bound: set<Key>, actions: seq<Action>)
    requires Possible(Init(bound), actions)
    ensures Reachable(Exec(Init(bound), actions)) && Exec(Init(bound), actions).bound == bound
  {
    ExecKeepsBound(Init(bound), actions);
  }
}
