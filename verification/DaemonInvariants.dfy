/** What every step of the handler protocol keeps. */
module DaemonInvariants {
  import opened Common
  import opened Protocol
  import opened Wake
  import opened WakeHistory
  import opened WakeJournal
  import opened Daemon

  /** Past recording and not yet completed. */
  predicate InFlight(p: Phase) {
    p.OnFile? || p.Denied? || p.Authorized? || p.Executing? || p.Ran?
  }

  predicate HoldsLock(p: Phase) {
    p.Locked? || InFlight(p) || p.Leaving?
  }

  predicate HasPending(store: Store, k: Key, e: string) {
    var events := Events(Lookup(store, k));
    var i := IndexOf(events, e);
    i < |events| && events[i].status.Pending?
  }

  predicate IsCrashed(store: Store, k: Key) {
    Lookup(store, k).Some? && Lookup(store, k).value.lifecycle.status.Crashed?
  }

  ghost predicate LocksHeld(s: State) {
    forall id :: id in s.handlers && HoldsLock(s.handlers[id].phase) ==>
      s.handlers[id].key in s.locks && s.locks[s.handlers[id].key] == id
  }

  /** No completed record of the event is in the window. */
  ghost predicate Unfinished(ops: seq<Op>, k: Key, e: string) {
    forall i :: !CompletedInWindow(Journal(ops, k), e, i)
  }

  /** The event of handler `id` was recorded, and is in its stored session, pending,
      as long as no other binding writes to that session. Under trimmed ids, whoever
      writes to it, the event is not completed and the session is not crashed. */
  ghost predicate Safe(s: State, id: nat)
    requires id in s.handlers
  {
    var h := s.handlers[id];
    && Usable(TrimKey(h.key)) && Trim(h.delivery.eventId) != ""
    && (Alone(s.bound, h.key) ==> HasPending(s.store, TrimKey(h.key), Trim(h.delivery.eventId)))
    && (TrimKey(h.key) == h.key ==>
          !IsCrashed(s.store, h.key) && Unfinished(s.ops, h.key, Trim(h.delivery.eventId)))
  }

  ghost predicate Bound(s: State) {
    forall id :: id in s.handlers ==> s.handlers[id].key in s.bound
  }

  /** The invariant, except for what is known of the handlers in `open`. */
  ghost predicate InvBut(s: State, open: set<nat>) {
    && s.store == Replay(s.ops)
    && Bound(s)
    && LocksHeld(s)
    && forall id :: id in s.handlers && id !in open && InFlight(s.handlers[id].phase) ==> Safe(s, id)
  }

  ghost predicate Inv(s: State) {
    InvBut(s, {})
  }

  // -------------------------------------------- store operations seen from a key

  predicate TouchesEvents(op: Op) {
    op.Deliver? || op.Finish?
  }

  lemma EventsUntouched(store: Store, op: Op, k: Key)
    requires Target(op) != k || !TouchesEvents(op)
    ensures Events(Lookup(Apply(store, op), k)) == Events(Lookup(store, k))
  {
    ApplyIsLocal(store, op, k);
    if Target(op) == k { EffectIsWritten(Lookup(store, k), op); }
  }

  lemma CrashedUntouched(store: Store, op: Op, k: Key)
    requires Target(op) != k || !op.DoCrash?
    ensures IsCrashed(Apply(store, op), k) ==> IsCrashed(store, k)
  {
    ApplyIsLocal(store, op, k);
    if Target(op) == k {
      EffectIsWritten(Lookup(store, k), op);
      WrittenCrash(Lookup(store, k), op);
    }
  }

  lemma WrittenCrash(here: Option<Session>, op: Op)
    requires !op.DoCrash? && Holds(here, Target(op))
    ensures var r := Written(here, op);
            r.Some? && r.value.lifecycle.status.Crashed? ==> here.Some? && here.value.lifecycle.status.Crashed?
  {
  }

  lemma ReplaySnoc(ops: seq<Op>, op: Op)
    ensures Replay(ops + [op]) == Apply(Replay(ops), op)
  {
    assert (ops + [op])[..|ops|] == ops;
  }

  /** The operation leaves what is known of handler `id` as it is. */
  ghost predicate Spares(s: State, id: nat, op: Op)
    requires id in s.handlers
  {
    var k := s.handlers[id].key;
    && (Alone(s.bound, k) && TouchesEvents(op) ==> Target(op) != TrimKey(k))
    && (op.DoCrash? || op.Finish? ==> op.key != k)
  }

  lemma UnfinishedStays(ops: seq<Op>, op: Op, k: Key, e: string)
    requires Unfinished(ops, k, e) && (op.Finish? ==> op.key != k)
    ensures Unfinished(ops + [op], k, e)
  {
    JournalStep(ops, op, k);
    if Target(op) == k {
      forall i ensures !CompletedInWindow(Journaled(Journal(ops, k), op), e, i) {
        NoneIsCompleted(Journal(ops, k), op, e, i);
      }
    }
  }

  lemma NoneIsCompleted(log: seq<EventRecord>, op: Op, e: string, i: int)
    requires !op.Finish? && !CompletedInWindow(log, e, i)
    ensures !CompletedInWindow(Journaled(log, op), e, i)
  {
  }

  lemma SparedIsSafe(s: State, id: nat, op: Op)
    requires id in s.handlers && Safe(s, id) && Spares(s, id, op)
    ensures Safe(s.(store := Apply(s.store, op), ops := s.ops + [op]), id)
  {
    var k := s.handlers[id].key;
    if Alone(s.bound, k) { EventsUntouched(s.store, op, TrimKey(k)); }
    if TrimKey(k) == k {
      CrashedUntouched(s.store, op, k);
      UnfinishedStays(s.ops, op, k, Trim(s.handlers[id].delivery.eventId));
    }
  }

  /** A store operation that spares the other in-flight handlers. */
  lemma MutateKeeps(s: State, op: Op, saved: bool, open: set<nat>)
    requires InvBut(s, open)
    requires forall id :: id in s.handlers && id !in open && InFlight(s.handlers[id].phase) ==> Spares(s, id, op)
    ensures var t := Mutate(s, op, saved);
            InvBut(t, open) && t == s.(store := t.store, ops := t.ops)
  {
    if saved {
      var t := Mutate(s, op, saved);
      ReplaySnoc(s.ops, op);
      forall id | id in s.handlers && id !in open && InFlight(s.handlers[id].phase) ensures Safe(t, id) {
        assert Safe(s, id);
        SparedIsSafe(s, id, op);
      }
    }
  }

  /** A handler that holds its lock moves on; nothing else changes. */
  lemma MoveKeeps(s: State, id: nat, phase: Phase)
    requires InvBut(s, {id}) && id in s.handlers
    requires HoldsLock(phase) ==> HoldsLock(s.handlers[id].phase)
    requires InFlight(phase) ==> Safe(s, id)
    ensures Inv(MoveTo(s, id, phase))
  {
    var t := MoveTo(s, id, phase);
    forall other | other in t.handlers && InFlight(t.handlers[other].phase) ensures Safe(t, other) {
      assert Safe(s, other);
    }
  }

  /** Whoever holds the lock of a session is the only handler past recording there. */
  lemma LockExcludes(s: State, id: nat)
    requires LocksHeld(s) && id in s.handlers && HoldsLock(s.handlers[id].phase)
    ensures forall other :: other in s.handlers && other != id && HoldsLock(s.handlers[other].phase) ==>
              s.handlers[other].key != s.handlers[id].key
  {
  }

  /** An operation that a lock holder makes for its own session spares every
      other in-flight handler. */
  lemma OwnOpSpares(s: State, id: nat, op: Op, other: nat)
    requires Bound(s) && LocksHeld(s) && id in s.handlers && HoldsLock(s.handlers[id].phase)
    requires op.key == s.handlers[id].key
    requires other in s.handlers && other != id && InFlight(s.handlers[other].phase)
    ensures Spares(s, other, op)
  {
    LockExcludes(s, id);
    TrimKeyIdempotent(s.handlers[other].key);
    assert s.handlers[id].key in s.bound;
  }

  // ------------------------------------------------------------- preservation

  lemma RecordKeeps(s: State, id: nat, now: string, saved: bool)
    requires Inv(s) && Enabled(s, Record(id, now, saved))
    ensures Inv(RecordOrGate(s, id, now, saved))
  {
    var h := s.handlers[id];
    var d := h.delivery;
    var op := Deliver(h.key, d.eventId, d.deliveryId, d.payload, now);
    var spec := RecordDelivery(s.store, h.key, d.eventId, d.deliveryId, d.payload, now);
    if spec.Ok? && saved {
      OwnMutationKeeps(s, id, op, true);
      RecordedIsPending(s.store, op);
      var (_, session, duplicate) := spec.value;
      TrimKeyIdempotent(h.key);
      if !duplicate {
        NewIsUnfinished(s.ops, h.key, d.eventId, d.deliveryId, d.payload, now);
        UnfinishedStays(s.ops, op, TrimKey(h.key), Trim(d.eventId));
      }
      MoveKeeps(Mutate(s, op, true), id,
                if duplicate then Leaving(true) else if Gated(session) then Leaving(false) else OnFile);
    } else {
      MoveKeeps(s, id, Leaving(false));
    }
  }

  lemma NewIsUnfinished(ops: seq<Op>, key: Key, e: string, d: string, p: string, now: string)
    requires RecordDelivery(Replay(ops), key, e, d, p, now).Ok?
    requires !RecordDelivery(Replay(ops), key, e, d, p, now).value.2
    ensures Unfinished(ops, TrimKey(key), Trim(e))
  {
    DuplicateIffCompletedInWindow(ops, key, e, d, p, now);
  }

  lemma RecordedIsPending(store: Store, op: Op)
    requires op.Deliver?
    requires RecordDelivery(store, op.key, op.eventId, op.deliveryId, op.payload, op.now).Ok?
    ensures var (after, session, duplicate) :=
              RecordDelivery(store, op.key, op.eventId, op.deliveryId, op.payload, op.now).value;
            && Lookup(after, TrimKey(op.key)) == Some(session)
            && (!duplicate ==> HasPending(after, TrimKey(op.key), Trim(op.eventId)))
            && (IsCrashed(after, TrimKey(op.key)) ==> Gated(session))
  {
    var s := Ensured(store, TrimKey(op.key), op.now);
    var r := Recorded(s, Trim(op.eventId), op.deliveryId, op.payload, op.now);
    LookupPut(store, r, TrimKey(op.key));
    if !IsDuplicate(s, Trim(op.eventId)) {
      RecordedHasPending(s, Trim(op.eventId), op.deliveryId, op.payload, op.now);
    }
  }

  lemma RecordedHasPending(s: Session, e: string, d: string, p: string, now: string)
    requires !IsDuplicate(s, e)
    ensures var r := Recorded(s, e, d, p, now);
            IndexOf(r.events, e) < |r.events| && r.events[IndexOf(r.events, e)].status.Pending?
  {
    var r, i := Recorded(s, e, d, p, now), IndexOf(s.events, e);
    if i < |s.events| {
      IndexOfIs(r.events, e, i);
    } else {
      IndexOfIs(r.events, e, |r.events| - 1);
    }
  }

  /** The holder of a session may record, complete or crash it. */
  lemma OwnMutationKeeps(s: State, id: nat, op: Op, saved: bool)
    requires InvBut(s, {id}) && id in s.handlers && HoldsLock(s.handlers[id].phase)
    requires op.key == s.handlers[id].key
    ensures var t := Mutate(s, op, saved);
            InvBut(t, {id}) && t == s.(store := t.store, ops := t.ops)
  {
    forall other | other in s.handlers && other !in {id} && InFlight(s.handlers[other].phase)
      ensures Spares(s, other, op)
    {
      OwnOpSpares(s, id, op, other);
    }
    MutateKeeps(s, op, saved, {id});
  }

  lemma CompleteKeeps(s: State, id: nat, now: string, saved: bool)
    requires Inv(s) && Enabled(s, Complete(id, now, saved))
    ensures Inv(Step(s, Complete(id, now, saved)))
  {
    var h := s.handlers[id];
    CompleteRunKeeps(s, id, h.phase.outcome, now, saved);
    MoveKeeps(CompleteRun(s, h, h.phase.outcome, now, saved), id, Leaving(h.phase.outcome.Success?));
  }

  lemma CompleteRunKeeps(s: State, id: nat, outcome: Outcome, now: string, saved: bool)
    requires InvBut(s, {id}) && id in s.handlers && HoldsLock(s.handlers[id].phase)
    ensures var t := CompleteRun(s, s.handlers[id], outcome, now, saved);
            InvBut(t, {id}) && t == s.(store := t.store, ops := t.ops)
  {
    var h := s.handlers[id];
    var op := FinishOp(h, if outcome.Success? then Completed else Failed, now);
    OwnMutationKeeps(s, id, op, saved);
    if outcome.Unusable? {
      OwnMutationKeeps(Mutate(s, op, saved), id, DoCrash(h.key, outcome.reason, now), saved);
    }
  }

  lemma DenyKeeps(s: State, id: nat, now: string, saved: bool)
    requires Inv(s) && Enabled(s, Deny(id, now, saved))
    ensures Inv(Step(s, Deny(id, now, saved)))
  {
    var op := FinishOp(s.handlers[id], Failed, now);
    OwnMutationKeeps(s, id, op, saved);
    MoveKeeps(Mutate(s, op, saved), id, Leaving(false));
  }

  lemma StartKeeps(s: State, id: nat, now: string, saved: bool)
    requires Inv(s) && Enabled(s, Start(id, now, saved))
    ensures Inv(Step(s, Start(id, now, saved)))
  {
    var h := s.handlers[id];
    var op := DoGrant(h.key, h.phase.permissions, now);
    MutateKeeps(s, op, saved, {});
    assert Safe(Mutate(s, op, saved), id);
    MoveKeeps(Mutate(s, op, saved), id, Executing(h.phase.permissions));
  }

  lemma LockKeeps(s: State, id: nat)
    requires Inv(s) && Enabled(s, Lock(id))
    ensures Inv(Step(s, Lock(id)))
  {
    var t := Step(s, Lock(id));
    forall other | other in t.handlers && InFlight(t.handlers[other].phase) ensures Safe(t, other) {
      assert Safe(s, other);
    }
  }

  lemma UnlockKeeps(s: State, id: nat)
    requires Inv(s) && Enabled(s, Unlock(id))
    ensures Inv(Step(s, Unlock(id)))
  {
    LockExcludes(s, id);
    var t := Step(s, Unlock(id));
    forall other | other in t.handlers && InFlight(t.handlers[other].phase) ensures Safe(t, other) {
      assert Safe(s, other);
    }
  }

  lemma ReturnKeeps(s: State, id: nat, outcome: Outcome)
    requires Inv(s) && Enabled(s, Return(id, outcome))
    ensures Inv(Step(s, Return(id, outcome)))
  {
    assert Safe(s, id);
    var t := MoveTo(s, id, Ran(outcome));
    MoveKeeps(s, id, Ran(outcome));
    var u := Step(s, Return(id, outcome));
    forall other | other in u.handlers && InFlight(u.handlers[other].phase) ensures Safe(u, other) {
      assert Safe(t, other);
    }
  }

  lemma AuthorizeKeeps(s: State, id: nat, granted: Option<seq<string>>)
    requires Inv(s) && Enabled(s, Authorize(id, granted))
    ensures Inv(Step(s, Authorize(id, granted)))
  {
    assert Safe(s, id);
    MoveKeeps(s, id, if granted.Some? then Authorized(granted.value) else Denied);
  }

  lemma ReceiveKeeps(s: State, id: nat, key: Key, delivery: Delivery)
    requires Inv(s) && Enabled(s, Receive(id, key, delivery))
    ensures Inv(Step(s, Receive(id, key, delivery)))
  {
    var t := Step(s, Receive(id, key, delivery));
    forall other | other in t.handlers && InFlight(t.handlers[other].phase) ensures Safe(t, other) {
      assert Safe(s, other);
    }
  }

  lemma AcknowledgeKeeps(s: State, id: nat)
    requires Inv(s) && Enabled(s, Acknowledge(id))
    ensures Inv(Step(s, Acknowledge(id)))
  {
    var t := Step(s, Acknowledge(id));
    forall other | other in t.handlers && InFlight(t.handlers[other].phase) ensures Safe(t, other) {
      assert Safe(s, other);
    }
  }

  lemma StepKeepsInv(s: State, a: Action)
    requires Inv(s) && Enabled(s, a)
    ensures Inv(Step(s, a))
  {
    match a
    case Lock(id) => LockKeeps(s, id);
    case Record(id, now, saved) => RecordKeeps(s, id, now, saved);
    case Authorize(id, granted) => AuthorizeKeeps(s, id, granted);
    case Deny(id, now, saved) => DenyKeeps(s, id, now, saved);
    case Start(id, now, saved) => StartKeeps(s, id, now, saved);
    case Return(id, outcome) => ReturnKeeps(s, id, outcome);
    case Complete(id, now, saved) => CompleteKeeps(s, id, now, saved);
    case Unlock(id) => UnlockKeeps(s, id);
    case PauseSession(key, reason, now) => MutateKeeps(s, DoPause(key, reason, now), true, {});
    case ResumeSession(key, now) => MutateKeeps(s, DoResume(key, now), true, {});
    case Receive(id, key, delivery) => ReceiveKeeps(s, id, key, delivery);
    case Acknowledge(id) => AcknowledgeKeeps(s, id);
    case CrashDaemon =>
  }

  lemma {:induction false} ExecKeepsInv(s: State, actions: seq<Action>)
    requires Inv(s) && Possible(s, actions)
    ensures Inv(Exec(s, actions))
    decreases |actions|
  {
    if actions != [] {
      StepKeepsInv(s, actions[0]);
      ExecKeepsInv(Step(s, actions[0]), actions[1..]);
    }
  }

  lemma ReachableInv(s: State)
    requires Reachable(s)
    ensures Inv(s)
  {
    var actions :| Possible(Init(s.bound), actions) && Exec(Init(s.bound), actions) == s;
    ExecKeepsInv(Init(s.bound), actions);
  }

  lemma PendingIsInWindow(ops: seq<Op>, k: Key, e: string)
    requires HasPending(Replay(ops), k, e)
    ensures var log := Journal(ops, k);
            InWindow(log, e) < |log| && log[InWindow(log, e)].status.Pending?
  {
    BoundedHistoryRefinesJournal(ops, k);
    PendingInNewest(Journal(ops, k), e);
  }

  lemma PendingInNewest(log: seq<EventRecord>, e: string)
    requires var q := IndexOf(Newest(log), e); q < |Newest(log)| && Newest(log)[q].status.Pending?
    ensures InWindow(log, e) < |log| && log[InWindow(log, e)].status.Pending?
  {
    WindowMatches(log, e);
    NewestIs(log, InWindow(log, e));
  }

  /** In every reachable state, whatever other sessions, pauses and resumes do,
      and as long as no other binding shares the stored session: one handler per
      session at most is past recording, its event is in the stored history as
      pending, and its completion finds it exactly when neither the binding's ids
      nor the event id carry outer white space. */
  lemma InFlightEventsAreSafe(s: State, id: nat, status: EventStatus, now: string)
    requires Reachable(s) && id in s.handlers && InFlight(s.handlers[id].phase) && !status.Pending?
    requires Alone(s.bound, s.handlers[id].key)
    ensures forall other :: other in s.handlers && other != id && InFlight(s.handlers[other].phase) ==>
              s.handlers[other].key != s.handlers[id].key
    ensures HasPending(s.store, TrimKey(s.handlers[id].key), Trim(s.handlers[id].delivery.eventId))
    ensures var k, e := s.handlers[id].key, s.handlers[id].delivery.eventId;
            CompleteEvent(s.store, k, e, status, now).Ok? <==> TrimKey(k) == k && Trim(e) == e
  {
    ReachableInv(s);
    LockExcludes(s, id);
    assert Safe(s, id);
    var k, e := s.handlers[id].key, s.handlers[id].delivery.eventId;
    CompletesIff(s.store, k, e, status, now);
    FoundOnlyIfTrimmed(s.ops, k, e);
  }

  /** Under untrimmed ids no record is ever found. */
  lemma FoundOnlyIfTrimmed(ops: seq<Op>, k: Key, e: string)
    ensures var events := Events(Lookup(Replay(ops), k));
            IndexOf(events, e) < |events| ==> TrimKey(k) == k && Trim(e) == e
  {
    FoundIff(ops, k, e);
    JournalKeeps(ops, k);
    var i := InWindow(Journal(ops, k), e);
  }
}
