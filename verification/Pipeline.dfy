/** Provider, transport, client and daemon as one system, for one provider and
    one device. The transport may drop, delay, repeat and reorder messages: a
    message that was ever sent may arrive at any later time, any number of
    times, or never. Other devices and other providers do what they like. */
module Pipeline {
  import opened Common
  import opened Protocol
  import Client
  import Daemon
  import Permissions
  import PermissionHistory
  import Provider

  /** `name`, `options` and `hash` are fixed; `grants` is the history behind the
      daemon's permission state, and `saved` the one behind the permission file;
      `sent` and `acks` are all messages ever sent. */
  datatype State = State(
    name: string,
    options: Client.Options,
    hash: Permissions.Hash,
    daemon: Daemon.State,
    provider: Provider.State,
    grants: seq<PermissionHistory.Op>,
    saved: seq<PermissionHistory.Op>,
    sent: set<Delivery>,
    acks: set<Ack>)

  datatype Action =
    | ProviderStep(op: Provider.Op)
    | Deliver(id: nat, delivery: Delivery)
    | DaemonStep(action: Daemon.Action)
    | Authorize(id: nat, now: string, saved: bool)
    | WriteAck(id: nat)
    | AckArrives(ack: Ack)
    | PermissionAsked(request: Permissions.Request, now: string, saved: bool)
    | PermissionsEdited(edit: PermissionHistory.Op)             // another process loads, edits and saves
    | PermissionsReplaced(history: seq<PermissionHistory.Op>)   // another file is put in place
    | Restart

  /** The client is configured with the sessions the daemon has bindings for. */
  ghost predicate Configured(name: string, options: Client.Options, bound: set<Key>) {
    && options.handles
    && Client.SessionRegistrations(options) != []
    && forall i :: 0 <= i < |Client.SessionRegistrations(options)| ==>
         Key(name, Client.SessionRegistrations(options)[i]) in bound
  }

  function Init(name: string, options: Client.Options, hash: Permissions.Hash, bound: set<Key>,
                grants: seq<PermissionHistory.Op>): State
  {
    State(name, options, hash, Daemon.Init(bound), Provider.Init(), grants, grants, {}, {})
  }

  /** Daemon steps that need nothing from the rest of the system. */
  predicate Internal(s: State, a: Daemon.Action) {
    match a
    case Receive(_, key, _) => key.provider != s.name
    case Acknowledge(id) => id in s.daemon.handlers && s.daemon.handlers[id].key.provider != s.name
    case Authorize(_, _) => false
    case CrashDaemon => false
    case _ => true
  }

  /** An authorization that the permission state answers; a failed save denies it. */
  function Granting(s: State, id: nat, saved: bool): Option<seq<string>>
    requires id in s.daemon.handlers
  {
    var key := s.daemon.handlers[id].key;
    var answer := Permissions.Answer(PermissionHistory.Replay(s.hash, s.grants), s.hash, key.provider, key.session);
    if answer.Ok? && saved then Some(answer.value.permissions) else None
  }

  ghost predicate Enabled(s: State, a: Action) {
    match a
    case ProviderStep(op) => Provider.FreshIds(s.provider, op) && !(op.DoAck? && op.device == s.options.deviceId)
    case Deliver(id, d) =>
      && d in s.sent && Client.Refused(s.options, true, Client.Incoming(Client.EventDeliver(d), true, true)) == None
      && Daemon.Enabled(s.daemon, Daemon.Receive(id, Key(s.name, d.sessionId), d))
    case DaemonStep(action) => Daemon.Enabled(s.daemon, action) && Internal(s, action)
    case Authorize(id, _, saved) =>
      id in s.daemon.handlers && Daemon.Enabled(s.daemon, Daemon.Authorize(id, Granting(s, id, saved)))
    case WriteAck(id) =>
      Daemon.Enabled(s.daemon, Daemon.Acknowledge(id)) && s.daemon.handlers[id].key.provider == s.name
    case AckArrives(ack) => ack in s.acks
    case _ => true
  }

  /** The messages a provider operation sends: a new publication to a connected
      device, or everything outstanding after a successful bind. */
  function Emitted(s: Provider.State, op: Provider.Op): set<Delivery> {
    match op
    case DoPublish(e, device, session, payload, newId) =>
      (match Provider.Publish(s, e, device, session, payload, newId)
       case Ok(r) => if r.online && !r.duplicate then {r.record.message} else {}
       case Err(_) => {})
    case DoBind(device, session, adapter) =>
      (match Provider.Bind(s, device, session, adapter)
       case Ok(t) => set m | m in Provider.DeliverPending(t, device, session)
       case Err(_) => {})
    case _ => {}
  }

  function Answered(s: State, id: nat): Ack
    requires id in s.daemon.handlers && s.daemon.handlers[id].phase.Answered?
  {
    Client.AckOf(s.options, s.daemon.handlers[id].delivery, s.daemon.handlers[id].phase.ok)
  }

  ghost function Step(s: State, a: Action): State
    requires Enabled(s, a)
  {
    match a
    case ProviderStep(op) =>
      s.(provider := Provider.Apply(s.provider, op), sent := s.sent + Emitted(s.provider, op))
    case Deliver(id, d) =>
      s.(daemon := Daemon.Step(s.daemon, Daemon.Receive(id, Key(s.name, d.sessionId), d)))
    case DaemonStep(action) => s.(daemon := Daemon.Step(s.daemon, action))
    case Authorize(id, now, saved) =>
      var key := s.daemon.handlers[id].key;
      var ok := Permissions.Answer(PermissionHistory.Replay(s.hash, s.grants), s.hash, key.provider, key.session).Ok?;
      var after := s.grants + [PermissionHistory.Use(key.provider, key.session, true, now)];
      s.(daemon := Daemon.Step(s.daemon, Daemon.Authorize(id, Granting(s, id, saved))),
         grants := after, saved := if ok && saved then after else s.saved)
    case WriteAck(id) =>
      s.(daemon := Daemon.Step(s.daemon, Daemon.Acknowledge(id)), acks := s.acks + {Answered(s, id)})
    case AckArrives(ack) =>
      var op := Provider.DoAck(s.options.deviceId, ack.deliveryId, ack.eventId, ack.status);
      s.(provider := Provider.Apply(s.provider, op))
    case PermissionAsked(request, now, saved) =>
      var after := s.grants + [PermissionHistory.Ask(request, now)];
      s.(grants := after, saved := if saved && Permissions.Accepted(request, now).Ok? then after else s.saved)
    case PermissionsEdited(op) => s.(saved := s.saved + [op])
    case PermissionsReplaced(history) => s.(saved := history)
    case Restart => s.(daemon := Daemon.Step(s.daemon, Daemon.CrashDaemon), grants := s.saved)
  }

  ghost predicate Possible(s: State, actions: seq<Action>)
    decreases |actions|
  {
    actions == [] || (Enabled(s, actions[0]) && Possible(Step(s, actions[0]), actions[1..]))
  }

  ghost function Exec(s: State, actions: seq<Action>): State
    requires Possible(s, actions)
    decreases |actions|
  {
    if actions == [] then s else Exec(Step(s, actions[0]), actions[1..])
  }
}
