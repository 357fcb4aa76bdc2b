/** What becomes of an event that a closed gate holds back. */
module DaemonHeld {
  import opened Common
  import opened Wake
  import opened WakeHistory
  import opened WakeJournal
  import opened Daemon
  import opened DaemonInvariants
  import opened DaemonGate

  /** This handler, whatever its completion does, leaves the gate and event `e` alone. */
  predicate Spared(h: Handler, e: string) {
    InFlight(h.phase) ==> !WillOpen(h) && h.delivery.eventId != e
  }

  /** No handler that works under these ids will open the session or finish `e`. */
  ghost predicate NoneFinishes(s: State, k: Key, e: string) {
    forall id :: id in s.handlers && s.handlers[id].key == k ==> Spared(s.handlers[id], e)
  }

  /** The session is gated, and no handler will open it or finish `e`. */
  ghost predicate Quiet(s: State, k: Key, e: string) {
    TrimKey(k) == k && IsGated(s.store, k) && NoneFinishes(s, k, e)
  }

  /** Entry `q` of the journal of session `k` is event `e`, pending. */
  ghost predicate WaitsAt(s: State, k: Key, e: string, q: nat) {
    var log := Journal(s.ops, k);
    q < |log| && log[q].eventId == e && log[q].status.Pending?
  }

  lemma MutateKeepsWaiting(s: State, op: Op, saved: bool, k: Key, e: string, q: nat)
    requires WaitsAt(s, k, e, q) && (op.Finish? ==> op.key != k || op.eventId != e)
    ensures WaitsAt(Mutate(s, op, saved), k, e, q)
  {
    JournalStep(s.ops, op, k);
  }

  lemma StepKeepsWaiting(s: State, a: Action, k: Key, e: string, q: nat)
    requires Enabled(s, a) && Quiet(s, k, e) && WaitsAt(s, k, e, q)
    ensures WaitsAt(Step(s, a), k, e, q)
  {
    match a
    case Record(id, now, saved) =>
      var h, d := s.handlers[id], s.handlers[id].delivery;
      MutateKeepsWaiting(s, Deliver(h.key, d.eventId, d.deliveryId, d.payload, now), true, k, e, q);
    case Deny(id, now, saved) => MutateKeepsWaiting(s, FinishOp(s.handlers[id], Failed, now), saved, k, e, q);
    case Start(id, now, saved) =>
      MutateKeepsWaiting(s, DoGrant(s.handlers[id].key, s.handlers[id].phase.permissions, now), saved, k, e, q);
    case Complete(id, now, saved) => CompleteKeepsWaiting(s, id, now, saved, k, e, q);
    case PauseSession(key, reason, now) => MutateKeepsWaiting(s, DoPause(key, reason, now), true, k, e, q);
    case ResumeSession(key, now) => MutateKeepsWaiting(s, DoResume(key, now), true, k, e, q);
    case _ =>
  }

  lemma CompleteKeepsWaiting(s: State, id: nat, now: string, saved: bool, k: Key, e: string, q: nat)
    requires Enabled(s, Complete(id, now, saved)) && WaitsAt(s, k, e, q)
    requires s.handlers[id].key == k ==> s.handlers[id].delivery.eventId != e
    ensures WaitsAt(Step(s, Complete(id, now, saved)), k, e, q)
  {
    var h := s.handlers[id];
    var op := FinishOp(h, if h.phase.outcome.Success? then Completed else Failed, now);
    MutateKeepsWaiting(s, op, saved, k, e, q);
    if h.phase.outcome.Unusable? {
      MutateKeepsWaiting(Mutate(s, op, saved), DoCrash(h.key, h.phase.outcome.reason, now), saved, k, e, q);
    }
  }

  /** No handler of a quiet session gets past recording, or changes its event. */
  lemma StaysSpared(s: State, a: Action, k: Key, e: string, id: nat)
    requires Inv(s) && Enabled(s, a) && Quiet(s, k, e)
    requires id in Step(s, a).handlers && Step(s, a).handlers[id].key == k
    ensures Spared(Step(s, a).handlers[id], e)
  {
    if !Acts(a, id) {
      OthersStand(s, a, id);
    } else if a.Record? {
      RecordKeepsGate(s, id, a.now, a.saved, k);
    } else {
      OwnMoveSpares(s, a, k, e, id);
    }
  }

  lemma OwnMoveSpares(s: State, a: Action, k: Key, e: string, id: nat)
    requires Enabled(s, a) && Acts(a, id) && !a.Record? && NoneFinishes(s, k, e)
    requires id in Step(s, a).handlers && Step(s, a).handlers[id].key == k
    ensures Spared(Step(s, a).handlers[id], e)
  {
    if OfHandler(a) {
      var p := Moved(s, a);
      assert Spared(s.handlers[id], e);
    }
  }

  lemma StepKeepsQuiet(s: State, a: Action, k: Key, e: string)
    requires Inv(s) && Enabled(s, a) && Quiet(s, k, e) && !(a.ResumeSession? && a.key == k)
    ensures Quiet(Step(s, a), k, e)
  {
    assert NoneOpens(s, k) by {
      forall id | id in s.handlers && s.handlers[id].key == k ensures !WillOpen(s.handlers[id]) {
        assert Spared(s.handlers[id], e);
      }
    }
    StepKeepsGate(s, a, k);
    forall id | id in Step(s, a).handlers && Step(s, a).handlers[id].key == k
      ensures Spared(Step(s, a).handlers[id], e)
    {
      StaysSpared(s, a, k, e, id);
    }
  }

  lemma {:induction false} ExecKeepsWaiting(s: State, actions: seq<Action>, k: Key, e: string, q: nat)
    requires Inv(s) && Possible(s, actions) && NoResume(actions, k) && Quiet(s, k, e) && WaitsAt(s, k, e, q)
    ensures Inv(Exec(s, actions)) && Quiet(Exec(s, actions), k, e) && WaitsAt(Exec(s, actions), k, e, q)
    decreases |actions|
  {
    if actions != [] {
      StepKeepsInv(s, actions[0]);
      StepKeepsQuiet(s, actions[0], k, e);
      StepKeepsWaiting(s, actions[0], k, e, q);
      ExecKeepsWaiting(Step(s, actions[0]), actions[1..], k, e, q);
    }
  }

  /** A new event of handler `id` meets a closed gate, and no handler under the stored
      session's own ids will open it or finish this event. Under trimmed ids the lock
      keeps such handlers out. */
  ghost predicate MeetsGate(s: State, id: nat) {
    && InPhase(s, id, (p: Phase) => p.Locked?)
    && var h, k := s.handlers[id], TrimKey(s.handlers[id].key);
    && Usable(k) && IsGated(s.store, k)
    && Trim(h.delivery.eventId) != "" && !IsDuplicate(Lookup(s.store, k).value, Trim(h.delivery.eventId))
    && (h.key != k ==> NoneFinishes(s, k, Trim(h.delivery.eventId)))
  }

  lemma HeldIsQuiet(s: State, id: nat, now: string)
    requires Inv(s) && MeetsGate(s, id)
    ensures Quiet(Step(s, Record(id, now, true)), TrimKey(s.handlers[id].key), Trim(s.handlers[id].delivery.eventId))
  {
    var k, e := TrimKey(s.handlers[id].key), Trim(s.handlers[id].delivery.eventId);
    var t := Step(s, Record(id, now, true));
    TrimKeyIdempotent(s.handlers[id].key);
    RecordKeepsGate(s, id, now, true, k);
    LockExcludes(s, id);
    forall other | other in t.handlers && t.handlers[other].key == k ensures Spared(t.handlers[other], e) {
      if other != id { OthersStand(s, Record(id, now, true), other); }
    }
  }

  lemma HeldIsWaiting(s: State, id: nat, now: string)
    requires Inv(s) && MeetsGate(s, id)
    ensures var k, e := TrimKey(s.handlers[id].key), Trim(s.handlers[id].delivery.eventId);
            var t := Step(s, Record(id, now, true));
            t.store == Replay(t.ops) && WaitsAt(t, k, e, InWindow(Journal(t.ops, k), e))
  {
    var h, d := s.handlers[id], s.handlers[id].delivery;
    var op := Deliver(h.key, d.eventId, d.deliveryId, d.payload, now);
    ReplaySnoc(s.ops, op);
    RecordedIsPending(s.store, op);
    PendingIsInWindow(s.ops + [op], TrimKey(h.key), Trim(d.eventId));
  }

  lemma StillHeldIff(t: State, k: Key, e: string, q: nat)
    requires t.store == Replay(t.ops) && WaitsAt(t, k, e, q)
    requires forall i :: q < i < |Journal(t.ops, k)| ==> Journal(t.ops, k)[i].eventId != e
    ensures HasPending(t.store, k, e) <==> |Journal(t.ops, k)| - q - 1 < MAX_EVENT_HISTORY
  {
    var log := Journal(t.ops, k);
    BoundedHistoryRefinesJournal(t.ops, k);
    WindowMatches(log, e);
    JournalKeeps(t.ops, k);
    if |log| - q <= MAX_EVENT_HISTORY { OthersMatch(log, q); }
  }

  /** A held event waits. Until its session is resumed, whatever else happens, its
      record stays pending; and unless the provider delivers it anew, the store
      still has it exactly while fewer than 500 records were appended after it. */
  lemma HeldEventWaits(s: State, id: nat, now: string, actions: seq<Action>)
    requires Reachable(s) && MeetsGate(s, id)
    requires Possible(Step(s, Record(id, now, true)), actions) && NoResume(actions, TrimKey(s.handlers[id].key))
    ensures var k, e := TrimKey(s.handlers[id].key), Trim(s.handlers[id].delivery.eventId);
            var held := Step(s, Record(id, now, true));
            var q, log := InWindow(Journal(held.ops, k), e), Journal(Exec(held, actions).ops, k);
            && WaitsAt(Exec(held, actions), k, e, q)
            && ((forall i :: q < i < |log| ==> log[i].eventId != e) ==>
                  (HasPending(Exec(held, actions).store, k, e) <==> |log| - q - 1 < MAX_EVENT_HISTORY))
  {
    ReachableInv(s);
    var k, e := TrimKey(s.handlers[id].key), Trim(s.handlers[id].delivery.eventId);
    var held := Step(s, Record(id, now, true));
    var q := InWindow(Journal(held.ops, k), e);
    StepKeepsInv(s, Record(id, now, true));
    HeldIsQuiet(s, id, now);
    HeldIsWaiting(s, id, now);
    ExecKeepsWaiting(held, actions, k, e, q);
    var log := Journal(Exec(held, actions).ops, k);
    if forall i :: q < i < |log| ==> log[i].eventId != e { StillHeldIff(Exec(held, actions), k, e, q); }
  }
}
