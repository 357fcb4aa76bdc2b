/** End to end: what a provider may conclude from a completed delivery. */
module PipelineSafety {
  import opened Common
  import opened Protocol
  import opened Pipeline
  import Client
  import Daemon
  import DaemonRuns
  import PermissionHistory
  import Provider

  ghost predicate RunFor(s: State, d: Delivery) {
    DaemonRuns.WasRun(s.daemon.runs, Key(s.name, d.sessionId), d.eventId)
  }

  /** Every message that was ever sent is that of a delivery on record. */
  ghost predicate SentIsOnRecord(s: State) {
    forall d :: d in s.sent ==>
      d.deliveryId in s.provider.deliveries && s.provider.deliveries[d.deliveryId].message == d
  }

  /** This provider's handlers work on messages it sent to this device for a
      registered session. */
  ghost predicate HandlersFollowMessages(s: State) {
    forall id :: id in s.daemon.handlers && s.daemon.handlers[id].key.provider == s.name ==>
      && s.daemon.handlers[id].delivery in s.sent
      && s.daemon.handlers[id].key.session == s.daemon.handlers[id].delivery.sessionId
      && Client.ValidTarget(s.options, s.daemon.handlers[id].delivery)
  }

  ghost predicate AcksAreTrue(s: State) {
    forall ack :: ack in s.acks && ack.status.AckCompleted? ==>
      && ack.deliveryId in s.provider.deliveries
      && s.provider.deliveries[ack.deliveryId].message.eventId == ack.eventId
      && RunFor(s, s.provider.deliveries[ack.deliveryId].message)
  }

  ghost predicate DeliveriesAreTrue(s: State) {
    forall id :: id in s.provider.deliveries && CompletedHere(s, s.provider.deliveries[id]) ==>
      RunFor(s, s.provider.deliveries[id].message)
  }

  predicate CompletedHere(s: State, r: Provider.Record) {
    r.message.deviceId == s.options.deviceId && r.status == Provider.Acked(AckCompleted)
  }

  ghost predicate Inv(s: State) {
    && s.options.handles
    && Provider.Joint(s.provider)
    && DaemonRuns.Truthful(s.daemon)
    && SentIsOnRecord(s)
    && HandlersFollowMessages(s)
    && AcksAreTrue(s)
    && DeliveriesAreTrue(s)
  }

  // ------------------------------------------------------------- provider steps

  lemma ProviderKeeps(s: State, op: Provider.Op)
    requires Inv(s) && Enabled(s, ProviderStep(op))
    ensures Inv(Step(s, ProviderStep(op)))
  {
    var t := Step(s, ProviderStep(op));
    Provider.ApplyKeepsJoint(s.provider, op);
    Provider.ApplySettles(s.provider, op);
    EmittedIsOnRecord(s.provider, op);
    ForeignStepCompletesNothing(s, op);
  }

  lemma EmittedIsOnRecord(s: Provider.State, op: Provider.Op)
    requires Provider.Joint(s) && Provider.FreshIds(s, op)
    ensures forall d :: d in Emitted(s, op) ==>
              && d.deliveryId in Provider.Apply(s, op).deliveries
              && Provider.Apply(s, op).deliveries[d.deliveryId].message == d
  {
    match op
    case DoBind(device, session, adapter) =>
      var bound := Provider.Bind(s, device, session, adapter);
      if bound.Ok? { SelectedIsOnRecord(bound.value, Provider.QueueOf(bound.value, device), session); }
    case _ =>
  }

  lemma {:induction false} SelectedIsOnRecord(s: Provider.State, queue: seq<string>, session: string)
    requires forall id :: id in s.deliveries ==> s.deliveries[id].message.deliveryId == id
    ensures forall d :: d in Provider.Selected(s.deliveries, queue, session) ==>
              d.deliveryId in s.deliveries && s.deliveries[d.deliveryId].message == d
  {
    if queue != [] { SelectedIsOnRecord(s, queue[1..], session); }
  }

  lemma ForeignStepLeaves(p: Provider.State, op: Provider.Op, device: string, id: string)
    requires !(op.DoAck? && op.device == device)
    requires var t := Provider.Apply(p, op);
             id in t.deliveries && t.deliveries[id].message.deviceId == device && t.deliveries[id].status.Acked?
    ensures id in p.deliveries && Provider.Apply(p, op).deliveries[id] == p.deliveries[id]
  {
  }

  /** Nobody else's step completes a delivery of this device. */
  lemma ForeignStepCompletesNothing(s: State, op: Provider.Op)
    requires Enabled(s, ProviderStep(op)) && DeliveriesAreTrue(s)
    ensures DeliveriesAreTrue(Step(s, ProviderStep(op)))
  {
    var t := Step(s, ProviderStep(op));
    forall id | id in t.provider.deliveries && CompletedHere(t, t.provider.deliveries[id])
      ensures RunFor(t, t.provider.deliveries[id].message)
    {
      ForeignStepLeaves(s.provider, op, s.options.deviceId, id);
    }
  }

  lemma SettlingKeepsMessages(s: State, t: State)
    requires SentIsOnRecord(s) && AcksAreTrue(s)
    requires t == s.(provider := t.provider) && Provider.Settles(s.provider, t.provider)
    ensures SentIsOnRecord(t) && AcksAreTrue(t)
  {
  }

  lemma AckCompletesTruly(s: State, ack: Ack)
    requires AcksAreTrue(s) && DeliveriesAreTrue(s) && ack in s.acks
    ensures DeliveriesAreTrue(Step(s, AckArrives(ack)))
  {
    var t := Step(s, AckArrives(ack));
    forall id | id in t.provider.deliveries && CompletedHere(t, t.provider.deliveries[id])
      ensures RunFor(t, t.provider.deliveries[id].message)
    {
      assert id != ack.deliveryId ==> t.provider.deliveries[id] == s.provider.deliveries[id];
    }
  }

  lemma AckKeeps(s: State, ack: Ack)
    requires Inv(s) && Enabled(s, AckArrives(ack))
    ensures Inv(Step(s, AckArrives(ack)))
  {
    var op := Provider.DoAck(s.options.deviceId, ack.deliveryId, ack.eventId, ack.status);
    Provider.ApplyKeepsJoint(s.provider, op);
    Provider.ApplySettles(s.provider, op);
    SettlingKeepsMessages(s, Step(s, AckArrives(ack)));
    AckCompletesTruly(s, ack);
  }

  // --------------------------------------------------------------- daemon steps

  lemma MoreRunsKeep(s: State, t: State)
    requires SentIsOnRecord(s) && AcksAreTrue(s) && DeliveriesAreTrue(s)
    requires t == s.(daemon := t.daemon, grants := t.grants, saved := t.saved)
    requires s.daemon.runs <= t.daemon.runs
    ensures SentIsOnRecord(t) && AcksAreTrue(t) && DeliveriesAreTrue(t)
  {
    forall d: Delivery | RunFor(s, d) ensures RunFor(t, d) {
      StillRun(s.daemon.runs, t.daemon.runs, Key(s.name, d.sessionId), d.eventId);
    }
  }

  lemma StillSucceeded(runs: seq<Daemon.Run>, more: seq<Daemon.Run>, k: Key, e: string)
    requires runs <= more && DaemonRuns.Succeeded(runs, k, e)
    ensures DaemonRuns.Succeeded(more, k, e)
  {
    var i :| 0 <= i < |runs| && runs[i].outcome.Success? && runs[i].key == k && runs[i].eventId == e;
    assert more[i] == runs[i];
  }

  lemma StillRun(runs: seq<Daemon.Run>, more: seq<Daemon.Run>, k: Key, e: string)
    requires runs <= more && DaemonRuns.WasRun(runs, k, e)
    ensures DaemonRuns.WasRun(more, k, e)
  {
    if DaemonRuns.Succeeded(runs, k, e) { StillSucceeded(runs, more, k, e); }
    else { StillSucceeded(runs, more, TrimKey(k), Trim(e)); }
  }

  /** A daemon step only appends runs, and keeps what each handler works on. */
  lemma StepAppendsRuns(d: Daemon.State, a: Daemon.Action)
    requires Daemon.Enabled(d, a)
    ensures d.runs <= Daemon.Step(d, a).runs
  {
  }

  lemma StepFrames(d: Daemon.State, a: Daemon.Action)
    requires Daemon.Enabled(d, a)
    ensures forall id :: id in Daemon.Step(d, a).handlers && !(a.Receive? && a.id == id) ==>
              && id in d.handlers
              && Daemon.Step(d, a).handlers[id].key == d.handlers[id].key
              && Daemon.Step(d, a).handlers[id].delivery == d.handlers[id].delivery
  {
    if Daemon.OfHandler(a) { var p := Daemon.Moved(d, a); }
  }

  lemma DaemonKeeps(s: State, a: Daemon.Action, t: State)
    requires Inv(s) && Daemon.Enabled(s.daemon, a)
    requires t == s.(daemon := Daemon.Step(s.daemon, a), grants := t.grants, saved := t.saved)
    requires a.Receive? && a.key.provider == s.name ==>
               a.delivery in s.sent && a.key.session == a.delivery.sessionId
               && Client.ValidTarget(s.options, a.delivery)
    ensures Inv(t)
  {
    StepFrames(s.daemon, a);
    StepAppendsRuns(s.daemon, a);
    DaemonRuns.StepKeepsTruthful(s.daemon, a);
    MoreRunsKeep(s, t);
    assert a.Receive? ==> t.daemon.handlers[a.id] == Daemon.Handler(a.key, a.delivery, Daemon.Waiting);
  }

  lemma WriteAckKeeps(s: State, id: nat)
    requires Inv(s) && Enabled(s, WriteAck(id))
    ensures Inv(Step(s, WriteAck(id)))
  {
    var t := Step(s, WriteAck(id));
    DaemonKeeps(s, Daemon.Acknowledge(id), t.(acks := s.acks));
    var h := s.daemon.handlers[id];
    assert h.delivery in s.sent;
    assert h.phase.ok ==> RunFor(s, h.delivery);
  }

  lemma StepKeepsInv(s: State, a: Action)
    requires Inv(s) && Enabled(s, a)
    ensures Inv(Step(s, a))
  {
    match a
    case ProviderStep(op) => ProviderKeeps(s, op);
    case Deliver(id, d) => DaemonKeeps(s, Daemon.Receive(id, Key(s.name, d.sessionId), d), Step(s, a));
    case DaemonStep(action) => DaemonKeeps(s, action, Step(s, a));
    case Authorize(id, _, saved) =>
      DaemonKeeps(s, Daemon.Authorize(id, Granting(s, id, saved)), Step(s, a));
    case WriteAck(id) => WriteAckKeeps(s, id);
    case AckArrives(ack) => AckKeeps(s, ack);
    case PermissionAsked(_, _, _) =>
    case PermissionsEdited(_) =>
    case PermissionsReplaced(_) =>
    case Restart => DaemonKeeps(s, Daemon.CrashDaemon, Step(s, a));
  }

  lemma {:induction false} ExecKeepsInv(s: State, actions: seq<Action>)
    requires Inv(s) && Possible(s, actions)
    ensures Inv(Exec(s, actions))
    decreases |actions|
  {
    if actions != [] {
      StepKeepsInv(s, actions[0]);
      ExecKeepsInv(Step(s, actions[0]), actions[1..]);
    }
  }

  lemma InitIsInv(name: string, options: Client.Options, hash: Permissions.Hash, bound: set<Key>,
                  grants: seq<PermissionHistory.Op>)
    requires options.handles
    ensures Inv(Init(name, options, hash, bound, grants))
  {
    assert forall device :: Provider.QueueOf(Provider.Init(), device) == [];
  }

  // --------------------------------------------------------------- main results

  lemma {:induction false} ConstantsStay(s: State, actions: seq<Action>)
    requires Possible(s, actions)
    ensures Exec(s, actions).name == s.name && Exec(s, actions).options == s.options && Exec(s, actions).hash == s.hash
    decreases |actions|
  {
    if actions != [] { ConstantsStay(Step(s, actions[0]), actions[1..]); }
  }

  /** End to end. In every behaviour, whatever messages are lost, repeated or
      reordered, however handlers interleave, and wherever the daemon crashes or
      fails to save: a delivery to this device whose status at the provider is
      `completed` had a successful adapter run under its own session and event id, or
      else under the trimmed ones. When those ids are trimmed that is the same. */
  lemma CompletedDeliveriesWereRun(name: string, options: Client.Options, hash: Permissions.Hash, bound: set<Key>,
                                   grants: seq<PermissionHistory.Op>, actions: seq<Action>, id: string)
    requires Configured(name, options, bound)
    requires Possible(Init(name, options, hash, bound, grants), actions)
    requires var provider := Exec(Init(name, options, hash, bound, grants), actions).provider;
             && id in provider.deliveries
             && provider.deliveries[id].message.deviceId == options.deviceId
             && provider.deliveries[id].status == Provider.Acked(AckCompleted)
    ensures var s := Exec(Init(name, options, hash, bound, grants), actions);
            var d := s.provider.deliveries[id].message;
            exists i :: 0 <= i < |s.daemon.runs|
              && s.daemon.runs[i].outcome.Success?
              && (|| (s.daemon.runs[i].key == Key(name, d.sessionId) && s.daemon.runs[i].eventId == d.eventId)
                  || (s.daemon.runs[i].key == TrimKey(Key(name, d.sessionId))
                      && s.daemon.runs[i].eventId == Trim(d.eventId)))
  {
    InitIsInv(name, options, hash, bound, grants);
    ExecKeepsInv(Init(name, options, hash, bound, grants), actions);
    ConstantsStay(Init(name, options, hash, bound, grants), actions);
    assert RunFor(Exec(Init(name, options, hash, bound, grants), actions),
                  Exec(Init(name, options, hash, bound, grants), actions).provider.deliveries[id].message);
  }

  // ------------------------------------------------ the daemon inside the system

  lemma StaysReachable(d: Daemon.State, a: Daemon.Action)
    requires Daemon.Reachable(d) && Daemon.Enabled(d, a) && Daemon.Step(d, a).bound == d.bound
    ensures Daemon.Reachable(Daemon.Step(d, a))
  {
    var actions :| Daemon.Possible(Daemon.Init(d.bound), actions) && Daemon.Exec(Daemon.Init(d.bound), actions) == d;
    Daemon.Extend(Daemon.Init(d.bound), actions, a);
  }

  /** The daemon inside the composed system is a daemon of the handler protocol,
      so every property of that protocol's reachable states holds here too. */
  lemma {:induction false} DaemonInSystemIsReachable(s: State, actions: seq<Action>)
    requires Daemon.Reachable(s.daemon) && Possible(s, actions)
    ensures Daemon.Reachable(Exec(s, actions).daemon) && Exec(s, actions).daemon.bound == s.daemon.bound
    decreases |actions|
  {
    if actions != [] {
      var a := actions[0];
      var move := Move(s, a);
      if move.Some? {
        Daemon.BoundStays(s.daemon, move.value);
        StaysReachable(s.daemon, move.value);
      }
      DaemonInSystemIsReachable(Step(s, a), actions[1..]);
    }
  }

  /** What a step of the system asks of the daemon. */
  ghost function Move(s: State, a: Action): (move: Option<Daemon.Action>)
    requires Enabled(s, a)
    ensures move.Some? ==>
              Daemon.Enabled(s.daemon, move.value) && Step(s, a).daemon == Daemon.Step(s.daemon, move.value)
    ensures move.None? ==> Step(s, a).daemon == s.daemon
  {
    match a
    case Deliver(id, d) => Some(Daemon.Receive(id, Key(s.name, d.sessionId), d))
    case DaemonStep(action) => Some(action)
    case Authorize(id, _, saved) => Some(Daemon.Authorize(id, Granting(s, id, saved)))
    case WriteAck(id) => Some(Daemon.Acknowledge(id))
    case Restart => Some(Daemon.CrashDaemon)
    case _ => None
  }

  /** The daemon's own behaviour inside a behaviour of the system. */
  ghost function Moves(s: State, actions: seq<Action>): seq<Daemon.Action>
    requires Possible(s, actions)
    decreases |actions|
  {
    if actions == [] then []
    else
      var rest := Moves(Step(s, actions[0]), actions[1..]);
      match Move(s, actions[0]) case Some(move) => [move] + rest case None => rest
  }

  /** A behaviour of the system moves the daemon as a behaviour of the handler
      protocol, so what holds of all those behaviours holds here. */
  lemma {:induction false} DaemonFollows(s: State, actions: seq<Action>)
    requires Possible(s, actions)
    ensures Daemon.Possible(s.daemon, Moves(s, actions))
    ensures Daemon.Exec(s.daemon, Moves(s, actions)) == Exec(s, actions).daemon
    decreases |actions|
  {
    if actions != [] {
      var t, rest := Step(s, actions[0]), Moves(Step(s, actions[0]), actions[1..]);
      DaemonFollows(t, actions[1..]);
      var move := Move(s, actions[0]);
      if move.Some? { Daemon.Prepend(s.daemon, move.value, rest); }
    }
  }
}
