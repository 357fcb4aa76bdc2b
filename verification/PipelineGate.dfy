/** The gate of a session in the whole system, with the permission state that
    decides who is authorized: exactly when it keeps its binding asleep. */
module PipelineGate {
  import opened Common
  import opened Protocol
  import opened Pipeline
  import opened PipelineSafety
  import opened PipelineSchedules
  import Client
  import Daemon
  import DaemonGate
  import DaemonInvariants
  import DaemonSlips
  import DaemonRepeats
  import DaemonWakes
  import PermissionAnswers
  import PermissionHistory
  import Permissions
  import PipelineRepeats
  import PipelineRuns
  import WakeHistory
  import WakeJournal

  /** The session can still come to be authorized without a restart: the grant that
      counts holds `runtime.wake`, whatever is on request just now. */
  predicate HoldsWake(s: State, k: Key) {
    PermissionAnswers.HoldsWake(PermissionHistory.Replay(s.hash, s.grants), k.provider, k.session)
  }

  /** A handler through which the binding can slip past its closed gate: it is
      authorized, it will open the session, or it is about to ask for an
      authorization that it can still get. */
  predicate MaySlip(s: State, h: Daemon.Handler, k: Key) {
    h.key == k && (h.phase.Authorized? || DaemonGate.WillOpen(h) || (h.phase.OnFile? && HoldsWake(s, k)))
  }

  ghost predicate Slips(s: State, k: Key) {
    exists id :: id in s.daemon.handlers && MaySlip(s, s.daemon.handlers[id], k)
  }

  /** Some behaviour without a resume starts the adapter for the binding. */
  ghost predicate CanWake(s: State, k: Key) {
    exists actions :: Possible(s, actions) && PipelineRuns.NoResume(actions, k) && PipelineRuns.Wakes(s, actions, k)
  }

  // ------------------------------------------------------------ the gate that holds

  ghost predicate Held(s: State, k: Key) {
    DaemonGate.IsGated(s.daemon.store, k) && !Slips(s, k)
  }

  /** Until a restart no grant comes back. */
  lemma WakeIsNotRegained(s: State, a: Action, k: Key)
    requires Enabled(s, a) && !a.Restart? && !HoldsWake(s, k)
    ensures !HoldsWake(Step(s, a), k)
  {
    match a
    case Authorize(id, now, _) =>
      var h := s.daemon.handlers[id].key;
      PermissionAnswers.WakeIsNotRegained(
        s.hash, s.grants, PermissionHistory.Use(h.provider, h.session, true, now), k.provider, k.session);
    case PermissionAsked(request, now, _) =>
      PermissionAnswers.WakeIsNotRegained(
        s.hash, s.grants, PermissionHistory.Ask(request, now), k.provider, k.session);
    case _ =>
  }

  /** Without that grant an authorization is refused. */
  lemma RefusedWithoutWake(s: State, id: nat, saved: bool)
    requires id in s.daemon.handlers && !HoldsWake(s, s.daemon.handlers[id].key)
    ensures Granting(s, id, saved) == None
  {
    var k := s.daemon.handlers[id].key;
    if Granting(s, id, saved).Some? { PermissionAnswers.AnsweredHoldsWake(s.hash, s.grants, k.provider, k.session); }
  }

  /** What a step of the handler protocol makes of a handler that cannot slip. */
  lemma MoveSlipsNot(d: Daemon.State, a: Daemon.Action, k: Key, id: nat, holds: bool)
    requires DaemonInvariants.Inv(d) && Daemon.Enabled(d, a) && DaemonGate.IsGated(d.store, k) && TrimKey(k) == k
    requires id in Daemon.Step(d, a).handlers && Daemon.Step(d, a).handlers[id].key == k
    requires id in d.handlers ==> !StaysRisky(d.handlers[id], holds)
    requires a.Authorize? && a.id == id ==> a.granted.Some? ==> holds
    ensures !StaysRisky(Daemon.Step(d, a).handlers[id], holds)
  {
    if !DaemonGate.Acts(a, id) {
      DaemonGate.OthersStand(d, a, id);
    } else if a.Record? {
      DaemonGate.RecordKeepsGate(d, id, a.now, a.saved, k);
    } else {
      OwnMoveSlipsNot(d, a, id, holds);
    }
  }

  lemma OwnMoveSlipsNot(d: Daemon.State, a: Daemon.Action, id: nat, holds: bool)
    requires Daemon.Enabled(d, a) && DaemonGate.Acts(a, id) && !a.Record?
    requires id in Daemon.Step(d, a).handlers
    requires id in d.handlers ==> !StaysRisky(d.handlers[id], holds)
    requires a.Authorize? ==> a.granted.Some? ==> holds
    ensures !StaysRisky(Daemon.Step(d, a).handlers[id], holds)
  {
    if Daemon.OfHandler(a) { var p := Daemon.Moved(d, a); }
  }

  predicate StaysRisky(h: Daemon.Handler, holds: bool) {
    h.phase.Authorized? || DaemonGate.WillOpen(h) || (h.phase.OnFile? && holds)
  }

  lemma SlipsNotAfter(s: State, t: State, move: Daemon.Action, k: Key, id: nat)
    requires DaemonInvariants.Inv(s.daemon) && Held(s, k) && TrimKey(k) == k
    requires Daemon.Enabled(s.daemon, move) && t.daemon == Daemon.Step(s.daemon, move) && id in t.daemon.handlers
    requires HoldsWake(t, k) ==> HoldsWake(s, k)
    requires move.Authorize? && s.daemon.handlers[move.id].key == k && move.granted.Some? ==> HoldsWake(s, k)
    ensures !MaySlip(t, t.daemon.handlers[id], k)
  {
    if t.daemon.handlers[id].key == k {
      if id in s.daemon.handlers {
        KeyStays(s.daemon, move, id);
        assert !MaySlip(s, s.daemon.handlers[id], k);
      }
      MoveSlipsNot(s.daemon, move, k, id, HoldsWake(s, k));
    }
  }

  lemma KeyStays(d: Daemon.State, a: Daemon.Action, id: nat)
    requires Daemon.Enabled(d, a) && id in d.handlers && id in Daemon.Step(d, a).handlers
    ensures Daemon.Step(d, a).handlers[id].key == d.handlers[id].key
  {
    HandlerKeepsKey(d, a, id);
  }

  lemma StepSlipsNot(s: State, a: Action, k: Key, id: nat)
    requires DaemonInvariants.Inv(s.daemon) && Enabled(s, a) && Held(s, k) && TrimKey(k) == k
    requires id in Step(s, a).daemon.handlers
    ensures !MaySlip(Step(s, a), Step(s, a).daemon.handlers[id], k)
  {
    var move := Move(s, a);
    if !HoldsWake(s, k) && !a.Restart? { WakeIsNotRegained(s, a, k); }
    if a.Authorize? && s.daemon.handlers[a.id].key == k && !HoldsWake(s, k) { RefusedWithoutWake(s, a.id, a.saved); }
    if move.Some? {
      SlipsNotAfter(s, Step(s, a), move.value, k, id);
    } else {
      assert !MaySlip(s, s.daemon.handlers[id], k);
    }
  }

  lemma StepKeepsHeld(s: State, a: Action, k: Key)
    requires DaemonInvariants.Inv(s.daemon) && Enabled(s, a) && Held(s, k) && TrimKey(k) == k
    requires !(a.DaemonStep? && a.action.ResumeSession? && a.action.key == k)
    ensures Held(Step(s, a), k)
    ensures a.DaemonStep? && a.action.Start? ==> s.daemon.handlers[a.action.id].key != k
  {
    assert DaemonGate.NoneOpens(s.daemon, k) by {
      forall id | id in s.daemon.handlers && s.daemon.handlers[id].key == k
        ensures !DaemonGate.WillOpen(s.daemon.handlers[id])
      {
        assert !MaySlip(s, s.daemon.handlers[id], k);
      }
    }
    var move := Move(s, a);
    if move.Some? { DaemonGate.StepKeepsGate(s.daemon, move.value, k); }
    forall id | id in Step(s, a).daemon.handlers ensures !MaySlip(Step(s, a), Step(s, a).daemon.handlers[id], k) {
      StepSlipsNot(s, a, k, id);
    }
    if a.DaemonStep? && a.action.Start? { assert !MaySlip(s, s.daemon.handlers[a.action.id], k); }
  }

  lemma StepKeepsDaemonInv(s: State, a: Action)
    requires DaemonInvariants.Inv(s.daemon) && Enabled(s, a)
    ensures DaemonInvariants.Inv(Step(s, a).daemon)
  {
    var move := Move(s, a);
    if move.Some? { DaemonInvariants.StepKeepsInv(s.daemon, move.value); }
  }

  lemma {:induction false} HeldNeverWakes(s: State, actions: seq<Action>, k: Key)
    requires DaemonInvariants.Inv(s.daemon) && Possible(s, actions) && Held(s, k) && TrimKey(k) == k
    requires PipelineRuns.NoResume(actions, k)
    ensures !PipelineRuns.Wakes(s, actions, k)
    decreases |actions|
  {
    if actions != [] {
      StepKeepsHeld(s, actions[0], k);
      StepKeepsDaemonInv(s, actions[0]);
      HeldNeverWakes(Step(s, actions[0]), actions[1..], k);
    }
  }

  // ------------------------------------------------------- what gets through it

  lemma {:induction false} WakesAtEnd(s: State, first: seq<Action>, t: State, id: nat, k: Key)
    requires Leads(s, first, t) && Starting(t, id, k)
    ensures var all := first + [DaemonStep(Daemon.Start(id, "", true))];
            Possible(s, all) && PipelineRuns.Wakes(s, all, k)
    decreases |first|
  {
    var all := first + [DaemonStep(Daemon.Start(id, "", true))];
    if first == [] {
      assert all[1..] == [];
    } else {
      WakesAtEnd(Step(s, first[0]), first[1..], t, id, k);
      assert all[0] == first[0] && all[1..] == first[1..] + [DaemonStep(Daemon.Start(id, "", true))];
    }
  }

  /** A handler of the binding is about to start the adapter. */
  predicate Starting(s: State, id: nat, k: Key) {
    Daemon.Enabled(s.daemon, Daemon.Start(id, "", true)) && s.daemon.handlers[id].key == k
  }

  lemma StartingCanWake(s: State, first: seq<Action>, t: State, id: nat, k: Key)
    requires Leads(s, first, t) && NoneResumes(first) && Starting(t, id, k)
    ensures CanWake(s, k)
  {
    var all := first + [DaemonStep(Daemon.Start(id, "", true))];
    WakesAtEnd(s, first, t, id, k);
    assert PipelineRuns.NoResume(all, k);
  }

  lemma AskLeads(s: State, request: Permissions.Request) returns (actions: seq<Action>, t: State)
    ensures Leads(s, actions, t) && NoneResumes(actions)
    ensures t == s.(grants := s.grants + [PermissionHistory.Ask(request, "")])
  {
    var a := PermissionAsked(request, "", false);
    LeadsOne(s, a);
    actions, t := [a] + [], Step(s, a);
  }

  lemma AuthorizeLeads(s: State, id: nat, k: Key) returns (actions: seq<Action>, t: State)
    requires Permissions.Answer(PermissionHistory.Replay(s.hash, s.grants), s.hash, k.provider, k.session).Ok?
    requires Daemon.InPhase(s.daemon, id, (p: Daemon.Phase) => p.OnFile?) && s.daemon.handlers[id].key == k
    ensures Leads(s, actions, t) && NoneResumes(actions) && Starting(t, id, k)
  {
    var a := Authorize(id, "", true);
    AuthorizationStarts(s.daemon, id, Granting(s, id, true).value, k);
    LeadsOne(s, a);
    actions, t := [a] + [], Step(s, a);
  }

  lemma AuthorizationStarts(d: Daemon.State, id: nat, ids: seq<string>, k: Key)
    requires Daemon.InPhase(d, id, (p: Daemon.Phase) => p.OnFile?) && d.handlers[id].key == k
    ensures var a := Daemon.Authorize(id, Some(ids));
            && Daemon.Enabled(d, a) && Daemon.Enabled(Daemon.Step(d, a), Daemon.Start(id, "", true))
            && Daemon.Step(d, a).handlers[id].key == k
  {
  }

  /** Asking again for what was granted, and authorizing. */
  lemma AskerCanWake(s: State, id: nat, k: Key)
    requires PermissionAnswers.Plain(k.provider, k.session) && HoldsWake(s, k)
    requires Daemon.InPhase(s.daemon, id, (p: Daemon.Phase) => p.OnFile?) && s.daemon.handlers[id].key == k
    ensures CanWake(s, k)
  {
    var request := PermissionAnswers.WakeCanBeAskedFor(s.hash, s.grants, k.provider, k.session);
    var first, t := AskLeads(s, request);
    var second, u := AuthorizeLeads(t, id, k);
    LeadsOn(s, first, t, second, u);
    StartingCanWake(s, first + second, u, id, k);
  }

  lemma ReplaceLeads(s: State, history: seq<PermissionHistory.Op>) returns (actions: seq<Action>, t: State)
    ensures Leads(s, actions, t) && NoneResumes(actions) && t == s.(saved := history)
  {
    LeadsOne(s, PermissionsReplaced(history));
    actions, t := [PermissionsReplaced(history)] + [], Step(s, PermissionsReplaced(history));
  }

  lemma RestartLeads(s: State) returns (actions: seq<Action>, t: State)
    ensures Leads(s, actions, t) && NoneResumes(actions)
    ensures t == s.(daemon := s.daemon.(handlers := map[], locks := map[]), grants := s.saved)
  {
    LeadsOne(s, Restart);
    actions, t := [Restart] + [], Step(s, Restart);
  }

  /** Putting a file in place that grants the session, and restarting. */
  lemma RestartServes(s: State, k: Key) returns (actions: seq<Action>, t: State)
    requires s.daemon.store == WakeHistory.Replay(s.daemon.ops) && k in s.daemon.bound && WakeJournal.Usable(k)
    requires !DaemonGate.IsGated(s.daemon.store, k) && CanPublish(s, k)
    ensures Leads(s, actions, t) && NoneResumes(actions) && PipelineRepeats.Serves(t, 0, k, DaemonWakes.WAKE_ONLY)
  {
    var first, s1 := ReplaceLeads(s, PermissionAnswers.GrantingHistory(k.provider, k.session));
    var second;
    second, t := RestartLeads(s1);
    LeadsOn(s, first, s1, second, t);
    actions := first + second;
    PermissionAnswers.GrantedHistoryIsAnswered(s.hash, k.provider, k.session);
  }

  /** An open session that can be served wakes. */
  lemma ServedCanWake(s: State, first: seq<Action>, t: State, k: Key)
    requires Leads(s, first, t) && NoneResumes(first) && PipelineRepeats.Serves(t, 0, k, DaemonWakes.WAKE_ONLY)
    ensures CanWake(s, k)
  {
    var unused := DaemonRepeats.FreshDelivery(t.daemon, k, "", t.provider.events.Keys);
    var second, u, d := Obtain(t, k, unused.eventId);
    var last, v := PipelineRepeats.UnfinishedIsRun(u, 0, k, DaemonWakes.WAKE_ONLY, d);
    LeadsOn(t, second, u, last, v);
    LeadsOn(s, first, t, second + last, v);
    StartingCanWake(s, first + (second + last), v, 0, k);
  }

  /** The handler opens the session; after a restart with a grant the next delivery wakes. */
  lemma OpenerCanWake(s: State, id: nat, k: Key)
    requires DaemonInvariants.Inv(s.daemon) && k in s.daemon.bound && TrimKey(k) == k && CanPublish(s, k)
    requires id in s.daemon.handlers && s.daemon.handlers[id].key == k && DaemonGate.WillOpen(s.daemon.handlers[id])
    requires !s.daemon.handlers[id].phase.Authorized? && Daemon.Alone(s.daemon.bound, k)
    ensures CanWake(s, k)
  {
    var moves := DaemonSlips.Opening(id, s.daemon.handlers[id].phase);
    assert DaemonInvariants.Safe(s.daemon, id);
    DaemonSlips.OpeningOpens(s.daemon, id);
    OpeningFits(s, id);
    var first, t := Follow(s, Nothing, moves);
    DaemonInvariants.ExecKeepsInv(s.daemon, moves);
    Daemon.ExecKeepsBound(s.daemon, moves);
    PipelineRepeats.CanPublishStays(s, t, k);
    var second, u := RestartServes(t, k);
    LeadsOn(s, first, t, second, u);
    ServedCanWake(s, first + second, u, k);
  }

  lemma OpeningFits(s: State, id: nat)
    requires id in s.daemon.handlers
    ensures var moves := DaemonSlips.Opening(id, s.daemon.handlers[id].phase);
            FitsAll(s, Nothing, moves) && DaemonGate.NoneResumes(moves)
  {
  }

  // -------------------------------------------------------------------- main result

  lemma ReachableIsSound(s: State)
    requires PipelineRuns.Reachable(s) && s.options.handles
    ensures Inv(s) && DaemonInvariants.Inv(s.daemon)
  {
    var grants, actions, start :| PipelineRuns.ReachedBy(s, grants, actions, start);
    InitIsInv(s.name, s.options, s.hash, s.daemon.bound, grants);
    ExecKeepsInv(start, actions);
    PipelineRuns.ReachableDaemon(s);
    DaemonInvariants.ReachableInv(s.daemon);
  }

  /** Whoever has a handler of the binding at work can publish for it. */
  lemma WorkedOnCanPublish(s: State, id: nat, k: Key)
    requires Inv(s) && id in s.daemon.handlers && s.daemon.handlers[id].key == k
    ensures CanPublish(s, k)
  {
    if k.provider == s.name {
      var d := s.daemon.handlers[id].delivery;
      assert d in s.sent && Client.ValidTarget(s.options, d) && d.sessionId == k.session;
      assert s.provider.deliveries[d.deliveryId].message == d;
    }
  }

  lemma SlipperyCanWake(s: State, id: nat, k: Key)
    requires Inv(s) && DaemonInvariants.Inv(s.daemon) && k in s.daemon.bound && TrimKey(k) == k
    requires id in s.daemon.handlers && MaySlip(s, s.daemon.handlers[id], k) && Daemon.Alone(s.daemon.bound, k)
    ensures CanWake(s, k)
  {
    var h := s.daemon.handlers[id];
    assert DaemonInvariants.Safe(s.daemon, id);
    if h.phase.Authorized? {
      StartingCanWake(s, [], s, id, k);
    } else if DaemonGate.WillOpen(h) {
      WorkedOnCanPublish(s, id, k);
      OpenerCanWake(s, id, k);
    } else {
      AskerCanWake(s, id, k);
    }
  }

  /** The gate in the whole system. While nothing can slip through it, a gated session
      keeps its binding asleep until it is resumed, whatever is requested, granted, put
      in place or restarted. For a binding that is alone on the session that is exact:
      when a handler is authorized, will open the session, or can still be authorized,
      some behaviour without a resume wakes it. */
  lemma GateHoldsIffNothingSlips(s: State, k: Key)
    requires PipelineRuns.Reachable(s) && s.options.handles && k in s.daemon.bound && TrimKey(k) == k
    requires DaemonGate.IsGated(s.daemon.store, k)
    ensures !Slips(s, k) ==> !CanWake(s, k)
    ensures Daemon.Alone(s.daemon.bound, k) ==> (Slips(s, k) <==> CanWake(s, k))
  {
    ReachableIsSound(s);
    if !Slips(s, k) {
      forall actions | Possible(s, actions) && PipelineRuns.NoResume(actions, k)
        ensures !PipelineRuns.Wakes(s, actions, k)
      {
        HeldNeverWakes(s, actions, k);
      }
    } else if Daemon.Alone(s.daemon.bound, k) {
      var id :| id in s.daemon.handlers && MaySlip(s, s.daemon.handlers[id], k);
      SlipperyCanWake(s, id, k);
    }
  }
}
