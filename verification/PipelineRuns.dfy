/** The daemon's theorems about whole behaviours, for the composed system. */
module PipelineRuns {
  import opened Common
  import opened Pipeline
  import opened PipelineSafety
  import opened PipelineTrimmed
  import Daemon
  import DaemonGate
  import DaemonHeld
  import DaemonInvariants
  import DaemonRuns
  import DaemonSlips
  import PermissionHistory
  import Wake
  import WakeJournal

  /** A state of the system that some behaviour from the start leads to. */
  ghost predicate Reachable(s: State) {
    exists grants, actions, start :: ReachedBy(s, grants, actions, start)
  }

  ghost predicate ReachedBy(s: State, grants: seq<PermissionHistory.Op>, actions: seq<Action>, start: State) {
    && start == Init(s.name, s.options, s.hash, s.daemon.bound, grants)
    && Possible(start, actions) && Exec(start, actions) == s
  }

  lemma ReachableDaemon(s: State)
    requires Reachable(s)
    ensures Daemon.Reachable(s.daemon)
  {
    var grants, actions, start :| ReachedBy(s, grants, actions, start);
    assert Daemon.Possible(start.daemon, []) && Daemon.Exec(start.daemon, []) == start.daemon;
    DaemonInSystemIsReachable(start, actions);
  }

  /** Some step of the behaviour starts the adapter for the binding. */
  ghost predicate Wakes(s: State, actions: seq<Action>, k: Key)
    requires Possible(s, actions)
    decreases |actions|
  {
    actions != [] &&
    (|| (actions[0].DaemonStep? && actions[0].action.Start? && s.daemon.handlers[actions[0].action.id].key == k)
     || Wakes(Step(s, actions[0]), actions[1..], k))
  }

  /** No step resumes the session. */
  ghost predicate NoResume(actions: seq<Action>, k: Key) {
    forall i :: 0 <= i < |actions| ==>
      !(actions[i].DaemonStep? && actions[i].action.ResumeSession? && actions[i].action.key == k)
  }

  lemma {:induction false} ResumesFollow(s: State, actions: seq<Action>, k: Key)
    requires Possible(s, actions) && NoResume(actions, k)
    ensures Daemon.Possible(s.daemon, Moves(s, actions)) && DaemonGate.NoResume(Moves(s, actions), k)
    decreases |actions|
  {
    DaemonFollows(s, actions);
    if actions != [] {
      ResumesFollow(Step(s, actions[0]), actions[1..], k);
    }
  }

  lemma {:induction false} WakesAreMoves(s: State, actions: seq<Action>, k: Key)
    requires Possible(s, actions) && Daemon.Possible(s.daemon, Moves(s, actions)) && Wakes(s, actions, k)
    ensures DaemonGate.Wakes(s.daemon, Moves(s, actions), k)
    decreases |actions|
  {
    var move, rest := Move(s, actions[0]), Moves(Step(s, actions[0]), actions[1..]);
    DaemonFollows(Step(s, actions[0]), actions[1..]);
    if move.Some? { assert Moves(s, actions)[1..] == rest; }
    if Wakes(Step(s, actions[0]), actions[1..], k) { WakesAreMoves(Step(s, actions[0]), actions[1..], k); }
  }

  /** No double wake, in the whole system: after a saved, successful run under
      trimmed ids, whatever bindings share the stored session, a handler of the
      binding is about to start the adapter for the same event only after that was
      appended anew, at least 500 other appends behind each record it had. */
  lemma NoDoubleWakeInSystem(s: State, id: nat, now: string, actions: seq<Action>, again: nat)
    requires Reachable(s) && Daemon.Enabled(s.daemon, Daemon.Complete(id, now, true))
    requires s.daemon.handlers[id].phase.outcome.Success? && DaemonRuns.HasTrimmedIds(s.daemon.handlers[id])
    requires Possible(s, [DaemonStep(Daemon.Complete(id, now, true))] + actions)
    requires var t := Exec(s, [DaemonStep(Daemon.Complete(id, now, true))] + actions).daemon;
             var h := s.daemon.handlers[id];
             && Daemon.InPhase(t, again, (p: Daemon.Phase) => p.Authorized?)
             && t.handlers[again].key == h.key && Trim(t.handlers[again].delivery.eventId) == h.delivery.eventId
    ensures var k, e := s.daemon.handlers[id].key, s.daemon.handlers[id].delivery.eventId;
            var t := Exec(s, [DaemonStep(Daemon.Complete(id, now, true))] + actions).daemon;
            && DaemonRuns.HasRecordFrom(WakeJournal.Journal(s.daemon.ops, k), e, 0)
            && DaemonRuns.FarApart(WakeJournal.Journal(s.daemon.ops, k), WakeJournal.Journal(t.ops, k), e)
  {
    var first := DaemonStep(Daemon.Complete(id, now, true));
    assert ([first] + actions)[1..] == actions;
    ReachableDaemon(s);
    DaemonFollows(Step(s, first), actions);
    DaemonRuns.NoDoubleWake(s.daemon, id, now, Moves(Step(s, first), actions), again, "", true);
  }

  lemma ReachablePlain(s: State)
    requires Reachable(s)
    ensures OnlyPlainRun(s.daemon)
  {
    var grants, actions, start :| ReachedBy(s, grants, actions, start);
    ExecKeepsPlain(start, actions);
  }

  /** No double wake of a stored session as a whole. In every reachable state of the
      system a handler that is about to start the adapter, under whatever binding of
      the session, for an event with a completed record there, comes at least 500
      appends after that record. */
  lemma NoDoubleWakeOfSession(s: State, k: Key)
    requires Reachable(s)
    ensures DaemonRuns.CompletedStaysBehind(s.daemon, k)
  {
    ReachableDaemon(s);
    ReachablePlain(s);
    PlainIsTrimmed(s.daemon);
    DaemonRuns.AuthorizedStayBehind(s.daemon, k);
  }

  lemma {:induction false} UntrimmedStaysAsleep(s: State, actions: seq<Action>, k: Key)
    requires OnlyPlainRun(s.daemon) && Possible(s, actions) && TrimKey(k) != k
    ensures !Wakes(s, actions, k)
    decreases |actions|
  {
    if actions != [] {
      StepKeepsPlain(s, actions[0]);
      UntrimmedStaysAsleep(Step(s, actions[0]), actions[1..], k);
    }
  }

  /** A session that is bound with outer white space is never woken, whatever is
      requested, granted, edited or put in place. */
  lemma UntrimmedNeverWakes(s: State, actions: seq<Action>, k: Key)
    requires Reachable(s) && Possible(s, actions) && TrimKey(k) != k
    ensures !Wakes(s, actions, k)
  {
    ReachablePlain(s);
    UntrimmedStaysAsleep(s, actions, k);
  }

  /** A completed record stays behind, in the whole system and for any bindings. */
  lemma CompletedRecordIsNotRunAgainInSystem(s: State, k: Key, e: string, p: nat, actions: seq<Action>, again: nat)
    requires Reachable(s) && DaemonRuns.DoneAt(s.daemon, k, e, p) && Possible(s, actions)
    requires var t := Exec(s, actions).daemon;
             && Daemon.InPhase(t, again, (f: Daemon.Phase) => f.Authorized?)
             && t.handlers[again].key == k && Trim(t.handlers[again].delivery.eventId) == e
    ensures |WakeJournal.Journal(Exec(s, actions).daemon.ops, k)| - p - 1 >= Wake.MAX_EVENT_HISTORY
  {
    ReachableDaemon(s);
    DaemonFollows(s, actions);
    DaemonRuns.CompletedRecordIsNotRunAgain(s.daemon, k, e, p, Moves(s, actions), again);
  }

  /** The gate, in the whole system: while nothing can slip through it, a gated
      session keeps each of its bindings asleep until it is resumed. */
  lemma GateHoldsInSystem(s: State, k: Key, actions: seq<Action>)
    requires Reachable(s) && Possible(s, actions) && NoResume(actions, TrimKey(k))
    requires DaemonGate.IsGated(s.daemon.store, TrimKey(k)) && !DaemonGate.Slips(s.daemon, k)
    ensures !Wakes(s, actions, k) && DaemonGate.IsGated(Exec(s, actions).daemon.store, TrimKey(k))
  {
    ReachableDaemon(s);
    DaemonInvariants.ReachableInv(s.daemon);
    DaemonFollows(s, actions);
    ResumesFollow(s, actions, TrimKey(k));
    DaemonGate.HeldNeverWakes(s.daemon, Moves(s, actions), k);
    if Wakes(s, actions, k) { WakesAreMoves(s, actions, k); }
  }

  /** While its stored session is crashed no binding is woken in the whole system. */
  lemma CrashedSessionsStayAsleepInSystem(s: State, k: Key, actions: seq<Action>)
    requires Reachable(s) && k in s.daemon.bound && Possible(s, actions) && NoResume(actions, TrimKey(k))
    requires DaemonInvariants.IsCrashed(s.daemon.store, TrimKey(k))
    ensures !Wakes(s, actions, k)
  {
    ReachableDaemon(s);
    if TrimKey(k) == k {
      DaemonSlips.CrashedSessionsStayAsleep(s.daemon, k);
      GateHoldsInSystem(s, k, actions);
    } else {
      UntrimmedNeverWakes(s, actions, k);
    }
  }

  /** A held event waits in the whole system, until its session is resumed. */
  lemma HeldEventWaitsInSystem(s: State, id: nat, now: string, actions: seq<Action>)
    requires Reachable(s) && DaemonHeld.MeetsGate(s.daemon, id)
    requires Possible(s, [DaemonStep(Daemon.Record(id, now, true))] + actions)
    requires NoResume(actions, TrimKey(s.daemon.handlers[id].key))
    ensures var k, e := TrimKey(s.daemon.handlers[id].key), Trim(s.daemon.handlers[id].delivery.eventId);
            var held := Daemon.Step(s.daemon, Daemon.Record(id, now, true));
            var t := Exec(s, [DaemonStep(Daemon.Record(id, now, true))] + actions).daemon;
            var q, log := WakeJournal.InWindow(WakeJournal.Journal(held.ops, k), e), WakeJournal.Journal(t.ops, k);
            && DaemonHeld.WaitsAt(t, k, e, q)
            && ((forall i :: q < i < |log| ==> log[i].eventId != e) ==>
                  (DaemonInvariants.HasPending(t.store, k, e) <==> |log| - q - 1 < Wake.MAX_EVENT_HISTORY))
  {
    var first := DaemonStep(Daemon.Record(id, now, true));
    assert ([first] + actions)[1..] == actions;
    ReachableDaemon(s);
    DaemonFollows(Step(s, first), actions);
    ResumesFollow(Step(s, first), actions, TrimKey(s.daemon.handlers[id].key));
    DaemonHeld.HeldEventWaits(s.daemon, id, now, Moves(Step(s, first), actions));
  }
}
