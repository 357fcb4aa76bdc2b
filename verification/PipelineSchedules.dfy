/** Which behaviours of the handler protocol the whole system can follow: what the
    provider has to send, and what the permission state has to answer. */
module PipelineSchedules {
  import opened Common
  import opened Protocol
  import opened Pipeline
  import Client
  import Daemon
  import DaemonGate
  import DaemonWakes
  import PermissionAnswers
  import PermissionHistory
  import Provider

  // ------------------------------------------------- following the handler protocol

  /** The authorization a behaviour counts on: whenever handler `id`, of binding
      `key`, asks, it gets these ids. */
  datatype Consent = Nothing | Consent(id: nat, key: Key, ids: seq<string>)

  ghost predicate Given(s: State, c: Consent) {
    c.Consent? ==>
      && PermissionAnswers.Standing(
           PermissionHistory.Replay(s.hash, s.grants), s.hash, c.key.provider, c.key.session, c.ids)
      && (c.id in s.daemon.handlers ==> s.daemon.handlers[c.id].key == c.key)
  }

  /** The message can arrive for this binding: other providers send what they like. */
  predicate CanArrive(s: State, k: Key, d: Delivery) {
    && d.sessionId == k.session
    && (k.provider == s.name ==> d in s.sent && Accepts(s, d))
  }

  predicate Accepts(s: State, d: Delivery) {
    Client.Refused(s.options, true, Client.Incoming(Client.EventDeliver(d), true, true)) == None
  }

  /** The system can take this step of the handler protocol when it is enabled. */
  predicate Fits(s: State, c: Consent, a: Daemon.Action) {
    match a
    case Receive(id, key, d) => CanArrive(s, key, d) && (c.Consent? && id == c.id ==> key == c.key)
    case Authorize(id, granted) => granted.Some? ==> c.Consent? && id == c.id && granted.value == c.ids
    case CrashDaemon => false
    case _ => true
  }

  ghost predicate FitsAll(s: State, c: Consent, moves: seq<Daemon.Action>) {
    forall i :: 0 <= i < |moves| ==> Fits(s, c, moves[i])
  }

  /** The system's own form of a step of the handler protocol. */
  function Raised(s: State, a: Daemon.Action): Action {
    match a
    case Receive(id, key, d) => if key.provider == s.name then Deliver(id, d) else DaemonStep(a)
    case Authorize(id, granted) => Authorize(id, "", granted.Some?)
    case Acknowledge(id) =>
      if id in s.daemon.handlers && s.daemon.handlers[id].key.provider == s.name then WriteAck(id) else DaemonStep(a)
    case _ => DaemonStep(a)
  }

  /** Everything but the daemon, its permissions and what it has answered. */
  ghost predicate SameWorld(s: State, t: State) {
    t == s.(daemon := t.daemon, grants := t.grants, saved := t.saved, acks := t.acks) && s.acks <= t.acks
  }

  lemma SameWorldOn(s: State, t: State, u: State)
    requires SameWorld(s, t) && SameWorld(t, u)
    ensures SameWorld(s, u)
  {
  }

  ghost predicate NoneResumes(actions: seq<Action>) {
    forall i :: 0 <= i < |actions| ==> !(actions[i].DaemonStep? && actions[i].action.ResumeSession?)
  }

  lemma HandlerKeepsKey(d: Daemon.State, a: Daemon.Action, id: nat)
    requires Daemon.Enabled(d, a) && id in Daemon.Step(d, a).handlers && !(a.Receive? && a.id == id)
    ensures id in d.handlers && Daemon.Step(d, a).handlers[id].key == d.handlers[id].key
  {
    if Daemon.OfHandler(a) { var p := Daemon.Moved(d, a); }
  }

  /** An authorization of anyone leaves what the behaviour counts on. */
  lemma UseKeepsGiven(s: State, c: Consent, t: State, provider: string, session: string)
    requires Given(s, c) && t.hash == s.hash
    requires t.grants == s.grants || t.grants == s.grants + [PermissionHistory.Use(provider, session, true, "")]
    requires c.Consent? && c.id in t.daemon.handlers ==> t.daemon.handlers[c.id].key == c.key
    ensures Given(t, c)
  {
    if c.Consent? && t.grants != s.grants {
      PermissionAnswers.UseKeepsStanding(s.hash, s.grants, PermissionHistory.Use(provider, session, true, ""),
                                         c.key.provider, c.key.session, c.ids);
    }
  }

  lemma AuthorizeFollows(s: State, c: Consent, a: Daemon.Action)
    requires Given(s, c) && a.Authorize? && Daemon.Enabled(s.daemon, a) && Fits(s, c, a)
    ensures Granting(s, a.id, a.granted.Some?) == a.granted
  {
  }

  lemma StepFollows(s: State, c: Consent, a: Daemon.Action)
    requires Given(s, c) && Daemon.Enabled(s.daemon, a) && Fits(s, c, a)
    ensures Enabled(s, Raised(s, a))
    ensures var t := Step(s, Raised(s, a));
            t.daemon == Daemon.Step(s.daemon, a) && SameWorld(s, t) && Given(t, c)
  {
    if a.Authorize? { AuthorizeFollows(s, c, a); }
    var t := Step(s, Raised(s, a));
    if c.Consent? && c.id in t.daemon.handlers && !(a.Receive? && a.id == c.id) {
      HandlerKeepsKey(s.daemon, a, c.id);
    }
    var k := if a.Authorize? then s.daemon.handlers[a.id].key else Key("", "");
    UseKeepsGiven(s, c, t, k.provider, k.session);
  }

  // ----------------------------------------------------------------- behaviours

  /** The behaviour is possible and ends there. */
  ghost predicate Leads(s: State, actions: seq<Action>, t: State)
    decreases |actions|
  {
    if actions == [] then t == s else Enabled(s, actions[0]) && Leads(Step(s, actions[0]), actions[1..], t)
  }

  lemma {:induction false} LeadsIff(s: State, actions: seq<Action>, t: State)
    ensures Leads(s, actions, t) <==> Possible(s, actions) && Exec(s, actions) == t
    decreases |actions|
  {
    if actions != [] && Enabled(s, actions[0]) { LeadsIff(Step(s, actions[0]), actions[1..], t); }
  }

  lemma {:induction false} LeadsOn(s: State, first: seq<Action>, t: State, rest: seq<Action>, u: State)
    requires Leads(s, first, t) && Leads(t, rest, u)
    ensures Leads(s, first + rest, u)
    decreases |first|
  {
    var all := first + rest;
    if first == [] {
      assert all == rest;
    } else {
      LeadsOn(Step(s, first[0]), first[1..], t, rest, u);
      assert all[0] == first[0] && all[1..] == first[1..] + rest;
    }
  }

  lemma LeadsFirst(s: State, a: Action, rest: seq<Action>, t: State)
    requires Enabled(s, a) && Leads(Step(s, a), rest, t)
    ensures Leads(s, [a] + rest, t)
  {
    assert ([a] + rest)[1..] == rest;
  }

  lemma LeadsOne(s: State, a: Action)
    requires Enabled(s, a)
    ensures Leads(s, [a] + [], Step(s, a))
  {
    LeadsFirst(s, a, [], Step(s, a));
  }

  /** Writing an acknowledgement, which for this provider is sent. */
  lemma FollowAck(s: State, c: Consent, id: nat) returns (actions: seq<Action>, t: State)
    requires Given(s, c) && Daemon.Enabled(s.daemon, Daemon.Acknowledge(id))
    ensures Leads(s, actions, t) && NoneResumes(actions)
    ensures t.daemon == Daemon.Step(s.daemon, Daemon.Acknowledge(id)) && SameWorld(s, t) && Given(t, c)
    ensures s.daemon.handlers[id].key.provider == s.name ==> Answered(s, id) in t.acks
  {
    var a := Raised(s, Daemon.Acknowledge(id));
    StepFollows(s, c, Daemon.Acknowledge(id));
    LeadsOne(s, a);
    actions, t := [a] + [], Step(s, a);
  }

  /** What the system has done is what this behaviour of the handler protocol does. */
  ghost predicate Followed(s: State, c: Consent, moves: seq<Daemon.Action>, t: State) {
    && Daemon.Possible(s.daemon, moves) && t.daemon == Daemon.Exec(s.daemon, moves)
    && SameWorld(s, t) && Given(t, c)
  }

  /** Any behaviour of the handler protocol whose steps fit can be followed. */
  lemma {:induction false} Follow(s: State, c: Consent, moves: seq<Daemon.Action>)
    returns (actions: seq<Action>, t: State)
    requires Given(s, c) && Daemon.Possible(s.daemon, moves) && FitsAll(s, c, moves)
    ensures Leads(s, actions, t) && Followed(s, c, moves, t)
    ensures DaemonGate.NoneResumes(moves) ==> NoneResumes(actions)
    decreases |moves|
  {
    if moves == [] {
      actions, t := [], s;
    } else {
      var a := Raised(s, moves[0]);
      StepFollows(s, c, moves[0]);
      FitStays(s, Step(s, a), c, moves);
      var rest;
      rest, t := Follow(Step(s, a), c, moves[1..]);
      LeadsFirst(s, a, rest, t);
      actions := [a] + rest;
      NoResumeAhead(s, moves, rest);
    }
  }

  lemma FitStays(s: State, t: State, c: Consent, moves: seq<Daemon.Action>)
    requires FitsAll(s, c, moves) && SameWorld(s, t) && moves != []
    ensures FitsAll(t, c, moves[1..])
  {
    forall i | 0 <= i < |moves[1..]| ensures Fits(t, c, moves[1..][i]) {
      assert Fits(s, c, moves[i + 1]);
    }
  }

  lemma NoResumeAhead(s: State, moves: seq<Daemon.Action>, rest: seq<Action>)
    requires moves != [] && (DaemonGate.NoneResumes(moves[1..]) ==> NoneResumes(rest))
    ensures DaemonGate.NoneResumes(moves) ==> NoneResumes([Raised(s, moves[0])] + rest)
  {
    if DaemonGate.NoneResumes(moves) {
      assert forall i :: 0 <= i < |moves[1..]| ==> moves[1..][i] == moves[i + 1];
    }
  }

  // -------------------------------------------------------- getting a message sent

  /** The provider can be brought to send messages for this binding to this device. */
  predicate CanPublish(s: State, k: Key) {
    k.provider == s.name ==>
      && Client.ValidTarget(s.options, Delivery("", "", s.options.deviceId, k.session, ""))
      && (k.session in s.provider.sessions ==> s.provider.sessions[k.session].device == s.options.deviceId)
  }

  /** Connecting, binding the session, and publishing an event. */
  function Publishing(s: State, k: Key, e: string, newId: string): seq<Action> {
    [ProviderStep(Provider.DoConnect(s.options.deviceId, 0))]
    + ([ProviderStep(Provider.DoBind(s.options.deviceId, k.session, ""))]
       + ([ProviderStep(Provider.DoPublish(e, s.options.deviceId, k.session, "", newId))] + []))
  }

  /** Only the provider did something. */
  ghost predicate OnlySent(s: State, t: State) {
    t == s.(provider := t.provider, sent := t.sent) && s.sent <= t.sent
  }

  lemma PublishingWorks(s: State, k: Key, e: string, newId: string) returns (t: State)
    requires k.provider == s.name && CanPublish(s, k) && e !in s.provider.events
    requires newId != "" && newId !in s.provider.deliveries
    ensures Leads(s, Publishing(s, k, e, newId), t) && OnlySent(s, t) && CanPublish(t, k)
    ensures var d := Delivery(newId, e, s.options.deviceId, k.session, ""); d in t.sent && OnRecord(t, d)
  {
    var a := ProviderStep(Provider.DoConnect(s.options.deviceId, 0));
    var b := ProviderStep(Provider.DoBind(s.options.deviceId, k.session, ""));
    var c := ProviderStep(Provider.DoPublish(e, s.options.deviceId, k.session, "", newId));
    var s1 := Step(s, a);
    var s2 := Step(s1, b);
    PublishSends(s2, k, e, newId);
    t := Step(s2, c);
    LeadsOne(s2, c);
    LeadsFirst(s1, b, [c] + [], t);
    LeadsFirst(s, a, [b] + ([c] + []), t);
  }

  lemma PublishSends(s: State, k: Key, e: string, newId: string)
    requires s.options.deviceId in s.provider.connections && k.session in s.provider.sessions
    requires s.provider.sessions[k.session].device == s.options.deviceId && e !in s.provider.events
    requires newId != "" && newId !in s.provider.deliveries
    ensures var a := ProviderStep(Provider.DoPublish(e, s.options.deviceId, k.session, "", newId));
            && Enabled(s, a) && OnlySent(s, Step(s, a)) && Step(s, a).provider.sessions == s.provider.sessions
            && var d := Delivery(newId, e, s.options.deviceId, k.session, "");
            && d in Step(s, a).sent && OnRecord(Step(s, a), d)
  {
  }

  /** The provider keeps the delivery under its id. */
  ghost predicate OnRecord(s: State, d: Delivery) {
    d.deliveryId in s.provider.deliveries && s.provider.deliveries[d.deliveryId].message == d
  }

  /** A new event can be brought to any binding the provider can send to. */
  lemma Obtain(s: State, k: Key, e: string) returns (actions: seq<Action>, t: State, d: Delivery)
    requires CanPublish(s, k) && e != "" && e !in s.provider.events
    ensures Leads(s, actions, t) && NoneResumes(actions)
    ensures OnlySent(s, t) && CanPublish(t, k) && CanArrive(t, k, d) && d.eventId == e
    ensures k.provider == s.name ==> d.deviceId == s.options.deviceId && OnRecord(t, d)
  {
    if k.provider == s.name {
      var newId := DaemonWakes.FreshEvent([], s.provider.deliveries.Keys);
      actions := Publishing(s, k, e, newId);
      d := Delivery(newId, e, s.options.deviceId, k.session, "");
      t := PublishingWorks(s, k, e, newId);
      ValidAlike(s.options, d);
    } else {
      actions, t := [], s;
      d := Delivery("", e, "", k.session, "");
    }
  }

  lemma ValidAlike(o: Client.Options, d: Delivery)
    requires Client.ValidTarget(o, Delivery("", "", d.deviceId, d.sessionId, ""))
    ensures Client.ValidTarget(o, d)
  {
  }
}
