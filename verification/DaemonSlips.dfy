/** When a paused or crashed session really stays asleep. */
module DaemonSlips {
  import opened Common
  import opened Protocol
  import opened Wake
  import opened WakeHistory
  import opened WakeJournal
  import opened Daemon
  import opened DaemonInvariants
  import opened DaemonGate
  import opened DaemonLocks
  import opened DaemonWakes

  /** An open session wakes: the lock can be freed, and a new event is let through. */
  lemma OpenCanWake(s: State, k: Key)
    requires Owned(s) && k in s.bound && Usable(TrimKey(k)) && !IsGated(s.store, TrimKey(k))
    ensures CanWake(s, k)
  {
    assert OwnedAt(s, k);
    var actions := Frees(s, k);
    var t := Exec(s, actions);
    var id := UnusedId(t.handlers);
    ReadyCanWake(t, id, k);
    WakesAfterAll(s, actions, k);
  }

  ghost predicate OnRecord(s: State, id: nat)
    requires id in s.handlers
  {
    var events := Events(Lookup(s.store, s.handlers[id].key));
    IndexOf(events, s.handlers[id].delivery.eventId) < |events|
  }

  /** The handler works under the ids `k` is stored under, and will open the session. */
  ghost predicate Opener(s: State, id: nat, k: Key) {
    && Owned(s) && k in s.bound
    && id in s.handlers && s.handlers[id].key == TrimKey(k) && Usable(TrimKey(k)) && WillOpen(s.handlers[id])
  }

  lemma DeniedOpens(s: State, id: nat, k: Key)
    requires Opener(s, id, k) && OnRecord(s, id) && s.handlers[id].phase.Denied?
    ensures CanWake(s, k)
  {
    var a := Deny(id, "", true);
    StepKeepsOwned(s, a);
    EffectiveFinishOpens(s.store, s.handlers[id].key, s.handlers[id].delivery.eventId, Failed, "");
    OpenCanWake(Step(s, a), k);
    WakesAfter(s, a, k);
  }

  lemma RanOpens(s: State, id: nat, k: Key)
    requires Opener(s, id, k) && OnRecord(s, id) && s.handlers[id].phase.Ran?
    ensures CanWake(s, k)
  {
    var a, h := Complete(id, "", true), s.handlers[id];
    var status := if h.phase.outcome.Success? then Completed else Failed;
    StepKeepsOwned(s, a);
    EffectiveFinishOpens(s.store, h.key, h.delivery.eventId, status, "");
    OpenCanWake(Step(s, a), k);
    WakesAfter(s, a, k);
  }

  lemma ExecutingOpens(s: State, id: nat, k: Key)
    requires Opener(s, id, k) && OnRecord(s, id) && s.handlers[id].phase.Executing?
    ensures CanWake(s, k)
  {
    var a := Return(id, Failure);
    StepKeepsOwned(s, a);
    RanOpens(Step(s, a), id, k);
    WakesAfter(s, a, k);
  }

  lemma RecordedOpens(s: State, id: nat, k: Key)
    requires Opener(s, id, k) && OnRecord(s, id)
    ensures CanWake(s, k)
  {
    match s.handlers[id].phase
    case OnFile =>
      StepKeepsOwned(s, Authorize(id, None));
      DeniedOpens(Step(s, Authorize(id, None)), id, k);
      WakesAfter(s, Authorize(id, None), k);
    case Authorized(_) =>
      StepKeepsOwned(s, Start(id, "", false));
      ExecutingOpens(Step(s, Start(id, "", false)), id, k);
      WakesAfter(s, Start(id, "", false), k);
    case Denied => DeniedOpens(s, id, k);
    case Executing(_) => ExecutingOpens(s, id, k);
    case Ran(_) => RanOpens(s, id, k);
  }

  /** An evicted event is on file again once another binding of the same stored
      session takes a delivery of it. */
  lemma Redelivered(s: State, id: nat, k: Key, j: Key) returns (actions: seq<Action>)
    requires Opener(s, id, k) && j in s.bound && TrimKey(j) == TrimKey(k) && j != TrimKey(k)
    requires Trim(s.handlers[id].delivery.eventId) != ""
    ensures Possible(s, actions) && NoneResumes(actions)
    ensures Opener(Exec(s, actions), id, k) && OnRecord(Exec(s, actions), id)
  {
    assert OwnedAt(s, j);
    var first := Frees(s, j);
    var t := Exec(s, first);
    ExecKeepsOwned(s, first);
    var other := UnusedId(t.handlers);
    var d := Delivery("", s.handlers[id].delivery.eventId, "", j.session, "");
    var rest := Files(t, other, j, d);
    ExecKeepsOwned(t, rest);
    Concatenate(s, first, rest);
    actions := first + rest;
  }

  lemma OpenerCanWake(s: State, id: nat, k: Key)
    requires Inv(s) && Opener(s, id, k)
    ensures CanWake(s, k)
  {
    assert Safe(s, id);
    TrimKeyIdempotent(k);
    if OnRecord(s, id) {
      RecordedOpens(s, id, k);
    } else {
      assert !Alone(s.bound, TrimKey(k));
      var j :| j in s.bound && TrimKey(j) == TrimKey(TrimKey(k)) && j != TrimKey(k);
      var actions := Redelivered(s, id, k, j);
      RecordedOpens(Exec(s, actions), id, k);
      WakesAfterAll(s, actions, k);
    }
  }

  /** The steps by which such a handler opens the session, with its save successful. */
  function Opening(id: nat, p: Phase): seq<Action> {
    match p
    case OnFile => [Authorize(id, None)] + ([Deny(id, "", true)] + [])
    case Denied => [Deny(id, "", true)] + []
    case Executing(_) => [Return(id, Failure)] + ([Complete(id, "", true)] + [])
    case Ran(_) => [Complete(id, "", true)] + []
    case _ => []
  }

  /** The last of them. */
  lemma ClosingOpens(s: State, id: nat)
    requires id in s.handlers && WillOpen(s.handlers[id]) && OnRecord(s, id)
    requires s.handlers[id].phase.Denied? || s.handlers[id].phase.Ran?
    ensures var a := if s.handlers[id].phase.Denied? then Deny(id, "", true) else Complete(id, "", true);
            Enabled(s, a) && !IsGated(Step(s, a).store, s.handlers[id].key)
  {
    var h := s.handlers[id];
    var status := if h.phase.Ran? && h.phase.outcome.Success? then Completed else Failed;
    EffectiveFinishOpens(s.store, h.key, h.delivery.eventId, status, "");
  }

  lemma OpeningOpens(s: State, id: nat)
    requires id in s.handlers && WillOpen(s.handlers[id]) && !s.handlers[id].phase.Authorized? && OnRecord(s, id)
    ensures var moves := Opening(id, s.handlers[id].phase);
            Possible(s, moves) && !IsGated(Exec(s, moves).store, s.handlers[id].key)
  {
    match s.handlers[id].phase
    case OnFile => OpensInTwo(s, id, Authorize(id, None), Deny(id, "", true));
    case Executing(_) => OpensInTwo(s, id, Return(id, Failure), Complete(id, "", true));
    case Denied =>
      ClosingOpens(s, id);
      Prepend(s, Deny(id, "", true), []);
    case Ran(_) =>
      ClosingOpens(s, id);
      Prepend(s, Complete(id, "", true), []);
  }

  lemma OpensInTwo(s: State, id: nat, a: Action, b: Action)
    requires id in s.handlers && WillOpen(s.handlers[id]) && OnRecord(s, id) && Enabled(s, a)
    requires || (a == Authorize(id, None) && b == Deny(id, "", true))
             || (a == Return(id, Failure) && b == Complete(id, "", true))
    ensures Possible(s, [a] + ([b] + [])) && !IsGated(Exec(s, [a] + ([b] + [])).store, s.handlers[id].key)
  {
    var t := Step(s, a);
    assert t.store == s.store;
    ClosingOpens(t, id);
    Prepend(t, b, []);
    Prepend(s, a, [b] + []);
  }

  lemma SlipperyCanWake(s: State, id: nat, k: Key)
    requires Inv(s) && Owned(s) && k in s.bound && TrimKey(k) == k && id in s.handlers && MaySlip(s.handlers[id], k)
    ensures CanWake(s, k)
  {
    if s.handlers[id].phase.OnFile? {
      OnFileCanWake(s, id, k);
    } else if s.handlers[id].phase.Authorized? {
      WakesNow(s, id, k);
    } else {
      assert Safe(s, id);
      OpenerCanWake(s, id, k);
    }
  }

  lemma EffectiveFinishOpens(store: Store, k: Key, e: string, status: EventStatus, now: string)
    requires !status.Pending? && IndexOf(Events(Lookup(store, k)), e) < |Events(Lookup(store, k))|
    ensures var after := Apply(store, Finish(k, e, status, now));
            Lookup(after, k).Some? && !IsGated(after, k)
  {
    var op := Finish(k, e, status, now);
    ApplyIsLocal(store, op, k);
    EffectIsWritten(Lookup(store, k), op);
  }

  // ---------------------------------------------------------------- main results

  /** Some behaviour without a resume of the stored session starts the adapter. */
  ghost predicate WakesThroughGate(s: State, k: Key) {
    exists actions :: Possible(s, actions) && NoResume(actions, TrimKey(k)) && Wakes(s, actions, k)
  }

  /** The gate. For any binding and whatever other bindings share its stored session:
      while nothing can slip through it, a gate on that session keeps the binding
      asleep in every behaviour until the session is resumed. What can slip: a handler
      of the binding that has not started the adapter yet, and a handler under the
      session's own ids whose completion overwrites the pause with an idle or failed
      lifecycle. Under trimmed ids, which alone are ever authorized, the condition is
      exact as far as the handler protocol goes. */
  lemma GateHoldsIffNothingSlips(s: State, k: Key)
    requires Reachable(s) && k in s.bound && IsGated(s.store, TrimKey(k))
    ensures !Slips(s, k) ==> !WakesThroughGate(s, k)
    ensures TrimKey(k) == k ==> (Slips(s, k) <==> WakesThroughGate(s, k))
  {
    ReachableInv(s);
    ReachableOwned(s);
    if !Slips(s, k) {
      forall actions | Possible(s, actions) && NoResume(actions, TrimKey(k)) ensures !Wakes(s, actions, k) {
        HeldNeverWakes(s, actions, k);
      }
    } else if TrimKey(k) == k {
      var id :| id in s.handlers && MaySlip(s.handlers[id], k);
      SlipperyCanWake(s, id, k);
      var actions :| Possible(s, actions) && NoneResumes(actions) && Wakes(s, actions, k);
      assert NoResume(actions, TrimKey(k));
    }
  }

  /** A crash closes the gate behind the handler that caused it: no handler under the
      crashed session's own ids is past recording. So a binding with these ids stays
      asleep until a resume, and so does any other that shares the session, unless
      one of its own handlers was past recording already. */
  lemma CrashedSessionsStayAsleep(s: State, k: Key)
    requires Reachable(s) && k in s.bound && IsCrashed(s.store, TrimKey(k))
    requires TrimKey(k) == k || forall id :: id in s.handlers && s.handlers[id].key == k ==>
               !s.handlers[id].phase.OnFile? && !s.handlers[id].phase.Authorized?
    ensures !Slips(s, k) && !WakesThroughGate(s, k)
  {
    ReachableInv(s);
    TrimKeyIdempotent(k);
    forall id | id in s.handlers && s.handlers[id].key == TrimKey(k) ensures !InFlight(s.handlers[id].phase) {
      assert InFlight(s.handlers[id].phase) ==> Safe(s, id);
    }
    GateHoldsIffNothingSlips(s, k);
  }

  /** The gate of an untrimmed binding is never seen. Pausing it, or marking it
      crashed, gates the session stored under its own ids, but its deliveries are
      recorded and checked under the trimmed ones: the next one passes the gate. */
  lemma UntrimmedGateIsNeverSeen(s: State, id: nat, k: Key, d: Delivery, reason: string, now: string, crash: bool)
    requires Ready(s, id, k) && TrimKey(k) != k
    requires d.sessionId == k.session && Trim(d.eventId) != "" && !HasCompleted(s.store, TrimKey(k), Trim(d.eventId))
    ensures var op := if crash then DoCrash(k, reason, now) else DoPause(k, reason, now);
            var t := Mutate(s, op, true);
            && IsGated(t.store, k) && Possible(t, TakeUp(id, k, d))
            && InPhase(Exec(t, TakeUp(id, k, d)), id, (p: Phase) => p.OnFile?)
  {
    var op := if crash then DoCrash(k, reason, now) else DoPause(k, reason, now);
    ApplyIsLocal(s.store, op, k);
    EffectIsWritten(Lookup(s.store, k), op);
    ApplyIsLocal(s.store, op, TrimKey(k));
    ReadyTakesUp(Mutate(s, op, true), id, k, d);
  }
}
