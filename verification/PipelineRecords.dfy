/** Where the records on the device come from: each is an event that the provider
    published for that session, with its payload as it was published. And what the
    provider sends, and an authorization grants, in the composed system. */
module PipelineRecords {
  import opened Common
  import opened Protocol
  import opened Pipeline
  import opened PipelineSafety
  import Client
  import Daemon
  import DaemonInvariants
  import Permissions
  import PermissionHistory
  import PermissionMeaning
  import Provider
  import ProviderMeaning
  import Wake
  import WakeHistory
  import WakeJournal
  import WakeMeaning

  /** Step `i` of the behaviour publishes just this message. */
  predicate PublishedAt(actions: seq<Action>, i: int, m: Delivery) {
    && 0 <= i < |actions| && actions[i].ProviderStep?
    && actions[i].op == Provider.DoPublish(m.eventId, m.deviceId, m.sessionId, m.payload, m.deliveryId)
  }

  /** A delivery operation that puts this message on file. */
  predicate Carries(op: WakeHistory.Op, m: Delivery) {
    && op.Deliver? && op.key.session == m.sessionId
    && op.eventId == m.eventId && op.deliveryId == m.deliveryId && op.payload == m.payload
  }

  ghost predicate WasSent(sent: set<Delivery>, device: string, op: WakeHistory.Op) {
    exists m :: m in sent && m.deviceId == device && Carries(op, m)
  }

  /** What this provider's bindings have put on file are messages it sent to the device. */
  ghost predicate FiledWereSent(s: State) {
    forall i :: 0 <= i < |s.daemon.ops| && s.daemon.ops[i].Deliver? ==>
      && s.daemon.ops[i].key in s.daemon.bound
      && (s.daemon.ops[i].key.provider == s.name ==> WasSent(s.sent, s.options.deviceId, s.daemon.ops[i]))
  }

  // ------------------------------------------------------------------ publications

  lemma {:induction false} DeliveriesWerePublished(s: State, actions: seq<Action>, id: string) returns (i: int)
    requires PipelineSafety.Inv(s) && Possible(s, actions) && id in Exec(s, actions).provider.deliveries
    ensures var m := Exec(s, actions).provider.deliveries[id].message;
            if id in s.provider.deliveries then m == s.provider.deliveries[id].message else PublishedAt(actions, i, m)
    decreases |actions|
  {
    i := 0;
    if actions != [] {
      var t, rest := Step(s, actions[0]), actions[1..];
      StepKeepsInv(s, actions[0]);
      var j := DeliveriesWerePublished(t, rest, id);
      if id !in t.provider.deliveries {
        i := j + 1;
        StepOfProvider(s, actions[0], id);
      } else {
        StepOfProvider(s, actions[0], id);
      }
    }
  }

  /** One step of the system adds a delivery only by publishing it. */
  lemma StepOfProvider(s: State, a: Action, id: string)
    requires PipelineSafety.Inv(s) && Enabled(s, a)
    ensures id in s.provider.deliveries ==>
              id in Step(s, a).provider.deliveries
              && Step(s, a).provider.deliveries[id].message == s.provider.deliveries[id].message
    ensures id !in s.provider.deliveries && id in Step(s, a).provider.deliveries ==>
              PublishedAt([a], 0, Step(s, a).provider.deliveries[id].message)
  {
    if a.ProviderStep? || a.AckArrives? {
      var op := if a.ProviderStep? then a.op
                else Provider.DoAck(s.options.deviceId, a.ack.deliveryId, a.ack.eventId, a.ack.status);
      if op.DoPublish? { ProviderMeaning.ApplyPublish(s.provider, op); }
      else { ProviderMeaning.OthersPublishNothing(s.provider, op); }
    }
  }

  // --------------------------------------------------------------- what is on file

  lemma SentLater(sent: set<Delivery>, more: set<Delivery>, device: string, op: WakeHistory.Op)
    requires WasSent(sent, device, op) && sent <= more
    ensures WasSent(more, device, op)
  {
  }

  lemma FiledLater(s: State, t: State)
    requires FiledWereSent(s) && t.daemon.ops == s.daemon.ops && t.daemon.bound == s.daemon.bound
    requires s.sent <= t.sent && t.name == s.name && t.options == s.options
    ensures FiledWereSent(t)
  {
    forall i | 0 <= i < |t.daemon.ops| && t.daemon.ops[i].Deliver? && t.daemon.ops[i].key.provider == t.name
      ensures WasSent(t.sent, t.options.deviceId, t.daemon.ops[i])
    {
      SentLater(s.sent, t.sent, t.options.deviceId, s.daemon.ops[i]);
    }
  }

  /** A step of the daemon adds at most one delivery to the history of its store: that
      of the handler that records. */
  lemma StepAddsDelivery(d: Daemon.State, a: Daemon.Action, i: nat)
    requires Daemon.Enabled(d, a)
    requires var ops := Daemon.Step(d, a).ops; i < |ops| && ops[i].Deliver? && !(i < |d.ops| && ops[i] == d.ops[i])
    ensures a.Record?
    ensures var op, h := Daemon.Step(d, a).ops[i], d.handlers[a.id];
            && op.key == h.key && op.eventId == h.delivery.eventId && op.deliveryId == h.delivery.deliveryId
            && op.payload == h.delivery.payload
  {
  }

  lemma DaemonKeepsFiled(s: State, a: Daemon.Action, t: State)
    requires FiledWereSent(s) && HandlersFollowMessages(s) && DaemonInvariants.Bound(s.daemon)
    requires Daemon.Enabled(s.daemon, a)
    requires t.daemon == Daemon.Step(s.daemon, a) && t.sent == s.sent && t.name == s.name && t.options == s.options
    ensures FiledWereSent(t)
  {
    Daemon.BoundStays(s.daemon, a);
    forall i | 0 <= i < |t.daemon.ops| && t.daemon.ops[i].Deliver?
      ensures t.daemon.ops[i].key in t.daemon.bound
      ensures t.daemon.ops[i].key.provider == t.name ==> WasSent(t.sent, t.options.deviceId, t.daemon.ops[i])
    {
      if !(i < |s.daemon.ops| && t.daemon.ops[i] == s.daemon.ops[i]) {
        StepAddsDelivery(s.daemon, a, i);
        assert t.daemon.ops[i].key.provider == s.name ==>
                 Carries(t.daemon.ops[i], s.daemon.handlers[a.id].delivery);
      }
    }
  }

  ghost predicate Filed(s: State) {
    PipelineSafety.Inv(s) && DaemonInvariants.Bound(s.daemon) && FiledWereSent(s)
  }

  lemma StepKeepsBound(s: State, a: Action)
    requires DaemonInvariants.Bound(s.daemon) && Enabled(s, a)
    ensures DaemonInvariants.Bound(Step(s, a).daemon)
  {
    var move := Move(s, a);
    if move.Some? {
      Daemon.BoundStays(s.daemon, move.value);
      StepFrames(s.daemon, move.value);
      assert move.value.Receive? ==> Step(s, a).daemon.handlers[move.value.id].key in s.daemon.bound;
    }
  }

  lemma StepKeepsFiled(s: State, a: Action)
    requires Filed(s) && Enabled(s, a)
    ensures Filed(Step(s, a))
  {
    StepKeepsInv(s, a);
    StepKeepsBound(s, a);
    var move := Move(s, a);
    if move.Some? { DaemonKeepsFiled(s, move.value, Step(s, a)); } else { FiledLater(s, Step(s, a)); }
  }

  lemma {:induction false} ExecKeepsFiled(s: State, actions: seq<Action>)
    requires Filed(s) && Possible(s, actions)
    ensures Filed(Exec(s, actions))
    decreases |actions|
  {
    if actions != [] {
      StepKeepsFiled(s, actions[0]);
      ExecKeepsFiled(Step(s, actions[0]), actions[1..]);
    }
  }

  // ------------------------------------------------------------------- main results

  /** The record is what this message left of its event: under the trimmed ids, and with
      the message's payload as long as it is pending. */
  predicate RecordOf(r: Wake.EventRecord, k: Key, m: Delivery) {
    && k.session == Trim(m.sessionId) && r.eventId == Trim(m.eventId) && r.deliveryId == Trim(m.deliveryId)
    && (r.status == Wake.Pending ==> r.payload == m.payload)
  }

  /** Every record on the device, in any behaviour, was put on file by one of its
      bindings. If that is a binding of this provider, the record is that of a message
      which the provider published for this device and the session of the binding, and
      as long as it is pending it carries the payload of that publication. */
  lemma RecordsWerePublished(name: string, options: Client.Options, hash: Permissions.Hash, bound: set<Key>,
                             grants: seq<PermissionHistory.Op>, actions: seq<Action>, k: Key, r: Wake.EventRecord)
    returns (key: Key, m: Delivery, i: int)
    requires options.handles && Possible(Init(name, options, hash, bound, grants), actions)
    requires var s := Exec(Init(name, options, hash, bound, grants), actions);
             r in WakeJournal.Events(Wake.Lookup(s.daemon.store, k))
    ensures key in bound && TrimKey(key) == k
    ensures key.provider == name ==>
              && m.deviceId == options.deviceId && m.sessionId == key.session && RecordOf(r, k, m)
              && PublishedAt(actions, i, m)
  {
    var s0 := Init(name, options, hash, bound, grants);
    InitIsInv(name, options, hash, bound, grants);
    var s := Exec(s0, actions);
    ExecKeepsFiled(s0, actions);
    ConstantsStay(s0, actions);
    StoreIsReplay(s0, actions);
    var j := FiledAs(s, k, r);
    key := s.daemon.ops[j].key;
    m, i := Delivery("", "", "", "", ""), 0;
    if key.provider == name {
      m :| m in s.sent && m.deviceId == s.options.deviceId && Carries(s.daemon.ops[j], m);
      i := DeliveriesWerePublished(s0, actions, m.deliveryId);
    }
  }

  lemma FiledAs(s: State, k: Key, r: Wake.EventRecord) returns (j: nat)
    requires FiledWereSent(s) && s.daemon.store == WakeHistory.Replay(s.daemon.ops)
    requires r in WakeJournal.Events(Wake.Lookup(s.daemon.store, k))
    ensures j < |s.daemon.ops| && WakeMeaning.ComesFrom(s.daemon.ops[j], k, r)
    ensures var key := s.daemon.ops[j].key;
            && key in s.daemon.bound && TrimKey(key) == k
            && (key.provider == s.name ==> WasSent(s.sent, s.options.deviceId, s.daemon.ops[j]))
  {
    WakeMeaning.RecordsWereDelivered(s.daemon.ops, k, r);
    j :| 0 <= j < |s.daemon.ops| && WakeMeaning.ComesFrom(s.daemon.ops[j], k, r);
  }

  lemma StoreIsReplay(s: State, actions: seq<Action>)
    requires s.daemon == Daemon.Init(s.daemon.bound) && Possible(s, actions)
    ensures Exec(s, actions).daemon.store == WakeHistory.Replay(Exec(s, actions).daemon.ops)
    ensures Exec(s, actions).daemon.bound == s.daemon.bound
  {
    assert Daemon.Possible(s.daemon, []) && Daemon.Exec(s.daemon, []) == s.daemon;
    DaemonInSystemIsReachable(s, actions);
    DaemonInvariants.ReachableInv(Exec(s, actions).daemon);
  }

  /** What the provider sends. A new event that is published for a connected device is
      sent to it at once, and a bind sends everything that is still pending for its
      session; nothing else is sent. */
  lemma SendsExactly(s: State, op: Provider.Op)
    requires PipelineSafety.Inv(s) && Enabled(s, ProviderStep(op))
    ensures var sent := Step(s, ProviderStep(op)).sent;
            match op
            case DoPublish(e, device, session, payload, newId) =>
              sent == if !ProviderMeaning.IsKnown(s.provider, e) && ProviderMeaning.OnTarget(s.provider, op)
                         && device in s.provider.connections
                      then s.sent + {Delivery(newId, e, device, session, payload)} else s.sent
            case DoBind(device, session, _) =>
              forall m :: m in sent <==>
                m in s.sent
                || (&& m.deliveryId in s.provider.deliveries
                    && s.provider.deliveries[m.deliveryId] == Provider.Record(m, Provider.StillPending)
                    && m.sessionId == session && m.deviceId == device)
            case _ => sent == s.sent
  {
    match op
    case DoPublish(e, device, session, payload, newId) => PublishSends(s.provider, op);
    case DoBind(device, session, adapter) => BindSends(s.provider, device, session, adapter);
    case _ =>
  }

  lemma PublishSends(p: Provider.State, op: Provider.Op)
    requires Provider.Joint(p) && Provider.FreshIds(p, op) && op.DoPublish?
    ensures Emitted(p, op)
            == if !ProviderMeaning.IsKnown(p, op.eventId) && ProviderMeaning.OnTarget(p, op)
                  && op.device in p.connections
               then {Delivery(op.newId, op.eventId, op.device, op.session, op.payload)} else {}
  {
    if ProviderMeaning.IsKnown(p, op.eventId) {
      var id :| id in p.deliveries && p.deliveries[id].message.eventId == op.eventId;
      ProviderMeaning.KnownPublication(p, id, op.device, op.session, op.payload, op.newId);
    } else {
      ProviderMeaning.FreshPublication(p, op.eventId, op.device, op.session, op.payload, op.newId);
    }
  }

  lemma BindSends(p: Provider.State, device: string, session: string, adapter: string)
    requires Provider.Joint(p)
    ensures forall m :: m in Emitted(p, Provider.DoBind(device, session, adapter)) <==>
              && m.deliveryId in p.deliveries
              && p.deliveries[m.deliveryId] == Provider.Record(m, Provider.StillPending)
              && m.sessionId == session && m.deviceId == device
  {
    var queue := Provider.QueueOf(p, device);
    forall m
      ensures m in Emitted(p, Provider.DoBind(device, session, adapter)) <==>
                && m.deliveryId in p.deliveries
                && p.deliveries[m.deliveryId] == Provider.Record(m, Provider.StillPending)
                && m.sessionId == session && m.deviceId == device
    {
      SelectedAre(p, queue, session, m);
      Provider.UnackedMembers(p.deliveries, p.published, device, m.deliveryId);
      assert queue == Provider.Unacked(p.deliveries, p.published, device);
    }
  }

  lemma {:induction false} SelectedAre(p: Provider.State, queue: seq<string>, session: string, m: Delivery)
    requires Provider.Joint(p)
    ensures m in Provider.Selected(p.deliveries, queue, session) <==>
              && m.deliveryId in queue && m.deliveryId in p.deliveries
              && p.deliveries[m.deliveryId].message == m && m.sessionId == session
  {
    if queue != [] {
      assert queue == [queue[0]] + queue[1..];
      SelectedAre(p, queue[1..], session, m);
    }
  }

  // -------------------------------------------------------------- what a wake may use

  /** What an authorization step grants, in any state: nothing unless it is saved, the
      session has a request, a grant counts for it, and the history behind the daemon's
      permission state approves `runtime.wake` under that grant as it is requested now;
      and then exactly the ids so approved. */
  lemma GrantingMeans(s: State, id: nat, saved: bool)
    requires id in s.daemon.handlers
    ensures var key, store := s.daemon.handlers[id].key, PermissionHistory.Replay(s.hash, s.grants);
            var best := PermissionHistory.Best(store.grants, key.provider, key.session);
            var granted := Granting(s, id, saved);
            if !saved || Permissions.GetRequest(store, key.provider, key.session).None? || best.None?
            then granted == None
            else
              var grant := Permissions.KeyOf(best.value);
              && (granted.Some? <==>
                    PermissionMeaning.ApprovedNow(s.hash, s.grants, grant, key.provider, key.session, "runtime.wake"))
              && (granted.Some? ==>
                    PermissionMeaning.ExactIds(s.hash, s.grants, grant, key.provider, key.session, granted.value))
  {
    PermissionMeaning.AnswerIsExact(s.hash, s.grants, s.daemon.handlers[id].key.provider,
                                    s.daemon.handlers[id].key.session);
  }
}
