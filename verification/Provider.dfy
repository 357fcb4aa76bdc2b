/** The example provider's state as values: what each method of AWPState
    computes, and the invariant that ties its five collections together. */
module Provider {
  import opened Common
  import opened Protocol

  datatype DeliveryStatus = StillPending | Acked(status: AckStatus)

  datatype Binding = Binding(device: string, adapter: string)

  datatype Record = Record(message: Delivery, status: DeliveryStatus)

  /** `published` is the insertion order of the `deliveries` dict; a connection
      is the identity of its socket. */
  datatype State = State(
    connections: map<string, nat>,
    sessions: map<string, Binding>,
    published: seq<string>,
    deliveries: map<string, Record>,
    events: map<string, string>,
    pending: map<string, seq<string>>)

  datatype ProviderError = OtherDevice | SessionNotFound | DeviceMismatch | DeliveryNotFound | NotYourDelivery

  function Init(): State {
    State(map[], map[], [], map[], map[], map[])
  }

  function Connect(s: State, device: string, socket: nat): State {
    s.(connections := s.connections[device := socket])
  }

  function Disconnect(s: State, device: string, socket: nat): State {
    if device in s.connections && s.connections[device] == socket then s.(connections := s.connections - {device})
    else s
  }

  function Bind(s: State, device: string, session: string, adapter: string): Result<State, ProviderError> {
    if session in s.sessions && s.sessions[session].device != device then Err(OtherDevice)
    else Ok(s.(sessions := s.sessions[session := Binding(device, adapter)]))
  }

  function QueueOf(s: State, device: string): seq<string> {
    if device in s.pending then s.pending[device] else []
  }

  datatype Published = Published(state: State, record: Record, online: bool, duplicate: bool)

  /** `newId` is the new delivery id. An event id that was published before
      answers with its delivery, whatever the new target says. */
  function Publish(s: State, eventId: string, device: string, session: string, payload: string, newId: string)
    : Result<Published, ProviderError>
  {
    if eventId in s.events && s.events[eventId] != "" && s.events[eventId] in s.deliveries then
      var record := s.deliveries[s.events[eventId]];
      Ok(Published(s, record, record.message.deviceId in s.connections, true))
    else if session !in s.sessions then Err(SessionNotFound)
    else if s.sessions[session].device != device then Err(DeviceMismatch)
    else
      var record := Record(Delivery(newId, eventId, device, session, payload), StillPending);
      Ok(Published(Enlist(s, record), record, device in s.connections, false))
  }

  function Enlist(s: State, record: Record): State {
    var m := record.message;
    s.(published := s.published + [m.deliveryId],
       deliveries := s.deliveries[m.deliveryId := record],
       events := s.events[m.eventId := m.deliveryId],
       pending := s.pending[m.deviceId := QueueOf(s, m.deviceId) + [m.deliveryId]])
  }

  function Dropped(queue: seq<string>, id: string): seq<string> {
    if queue == [] then []
    else (if queue[0] == id then [] else [queue[0]]) + Dropped(queue[1..], id)
  }

  function Acknowledge(s: State, device: string, deliveryId: string, eventId: string, status: AckStatus)
    : Result<State, ProviderError>
  {
    if deliveryId !in s.deliveries || s.deliveries[deliveryId].message.eventId != eventId then Err(DeliveryNotFound)
    else if s.deliveries[deliveryId].message.deviceId != device then Err(NotYourDelivery)
    else Ok(Settle(s, deliveryId, status))
  }

  function Settle(s: State, deliveryId: string, status: AckStatus): State
    requires deliveryId in s.deliveries
  {
    var record := s.deliveries[deliveryId];
    var device := record.message.deviceId;
    s.(deliveries := s.deliveries[deliveryId := record.(status := Acked(status))],
       pending := s.pending[device := Dropped(QueueOf(s, device), deliveryId)])
  }

  /** The messages deliver_pending sends for a session, in queue order. */
  function Selected(deliveries: map<string, Record>, queue: seq<string>, session: string): seq<Delivery> {
    if queue == [] then []
    else
      (if queue[0] in deliveries && deliveries[queue[0]].message.sessionId == session
       then [deliveries[queue[0]].message] else [])
      + Selected(deliveries, queue[1..], session)
  }

  function DeliverPending(s: State, device: string, session: string): seq<Delivery> {
    Selected(s.deliveries, QueueOf(s, device), session)
  }

  // --------------------------------------------------------------- operations

  datatype Op =
    | DoConnect(device: string, socket: nat)
    | DoDisconnect(device: string, socket: nat)
    | DoBind(device: string, session: string, adapter: string)
    | DoPublish(eventId: string, device: string, session: string, payload: string, newId: string)
    | DoAck(device: string, deliveryId: string, eventId: string, status: AckStatus)

  function Apply(s: State, op: Op): State {
    match op
    case DoConnect(device, socket) => Connect(s, device, socket)
    case DoDisconnect(device, socket) => Disconnect(s, device, socket)
    case DoBind(device, session, adapter) => (match Bind(s, device, session, adapter) case Ok(t) => t case Err(_) => s)
    case DoPublish(e, d, n, p, newId) => (match Publish(s, e, d, n, p, newId) case Ok(r) => r.state case Err(_) => s)
    case DoAck(d, id, e, status) => (match Acknowledge(s, d, id, e, status) case Ok(t) => t case Err(_) => s)
  }

  /** New delivery ids are not empty and have not been used before. */
  predicate FreshIds(s: State, op: Op) {
    op.DoPublish? ==> op.newId != "" && op.newId !in s.deliveries
  }

  // ---------------------------------------------------------- joint invariant

  /** The delivery ids of `order` that are still pending for this device. */
  function Unacked(deliveries: map<string, Record>, order: seq<string>, device: string): seq<string> {
    if order == [] then []
    else
      var last := order[|order| - 1];
      Unacked(deliveries, order[..|order| - 1], device)
      + if last in deliveries && deliveries[last].message.deviceId == device && deliveries[last].status.StillPending?
        then [last] else []
  }

  ghost predicate Listed(s: State) {
    && (forall i, j :: 0 <= i < j < |s.published| ==> s.published[i] != s.published[j])
    && (forall id :: id in s.published <==> id in s.deliveries)
  }

  /** The event index and the deliveries are inverse to each other. */
  ghost predicate Indexed(s: State) {
    && (forall id :: id in s.deliveries ==>
          id != "" && s.deliveries[id].message.deliveryId == id
          && s.deliveries[id].message.eventId in s.events && s.events[s.deliveries[id].message.eventId] == id)
    && (forall e :: e in s.events ==> s.events[e] in s.deliveries && s.deliveries[s.events[e]].message.eventId == e)
  }

  /** Every delivery goes to the device its session is bound to. */
  ghost predicate Routed(s: State) {
    forall id :: id in s.deliveries ==>
      var m := s.deliveries[id].message; m.sessionId in s.sessions && s.sessions[m.sessionId].device == m.deviceId
  }

  /** Each queue is the publication-ordered list of the device's unacked deliveries. */
  ghost predicate Queued(s: State) {
    forall device :: QueueOf(s, device) == Unacked(s.deliveries, s.published, device)
  }

  ghost predicate Joint(s: State) {
    Listed(s) && Indexed(s) && Routed(s) && Queued(s)
  }

  lemma {:induction false} UnackedIgnores(a: map<string, Record>, b: map<string, Record>, order: seq<string>,
                                          device: string)
    requires forall i :: 0 <= i < |order| ==> (order[i] in a <==> order[i] in b)
    requires forall i :: 0 <= i < |order| && order[i] in a ==> a[order[i]] == b[order[i]]
    ensures Unacked(a, order, device) == Unacked(b, order, device)
  {
    if order != [] { UnackedIgnores(a, b, order[..|order| - 1], device); }
  }

  lemma {:induction false} DroppedAbsent(queue: seq<string>, id: string)
    requires id !in queue
    ensures Dropped(queue, id) == queue
  {
    if queue != [] {
      assert queue == [queue[0]] + queue[1..];
      DroppedAbsent(queue[1..], id);
    }
  }

  lemma {:induction false} DroppedSnoc(queue: seq<string>, x: string, id: string)
    ensures Dropped(queue + [x], id) == Dropped(queue, id) + if x == id then [] else [x]
  {
    if queue != [] {
      assert (queue + [x])[1..] == queue[1..] + [x];
      DroppedSnoc(queue[1..], x, id);
    }
  }

  lemma {:induction false} UnackedMembers(deliveries: map<string, Record>, order: seq<string>, device: string,
                                          id: string)
    ensures id in Unacked(deliveries, order, device) <==>
              id in order && id in deliveries
              && deliveries[id].message.deviceId == device && deliveries[id].status.StillPending?
  {
    if order != [] {
      var last := order[|order| - 1];
      assert order == order[..|order| - 1] + [last];
      UnackedMembers(deliveries, order[..|order| - 1], device, id);
    }
  }

  /** Acking a delivery takes it out of its device's queue and nothing else. */
  lemma {:induction false} UnackedAfterAck(before: map<string, Record>, after: map<string, Record>,
                                           order: seq<string>, id: string, device: string)
    requires id in before && after.Keys == before.Keys
    requires after[id].message == before[id].message && !after[id].status.StillPending?
    requires forall x :: x in before && x != id ==> after[x] == before[x]
    ensures Unacked(after, order, device) == Dropped(Unacked(before, order, device), id)
  {
    if order != [] {
      var last, rest := order[|order| - 1], order[..|order| - 1];
      UnackedAfterAck(before, after, rest, id, device);
      DroppedSnoc(Unacked(before, rest, device), last, id);
      assert Unacked(before, rest, device) + [] == Unacked(before, rest, device);
    }
  }

  ghost predicate Enlistable(s: State, record: Record) {
    var m := record.message;
    && m.deliveryId != "" && m.deliveryId !in s.deliveries && m.eventId !in s.events
    && m.sessionId in s.sessions && s.sessions[m.sessionId].device == m.deviceId
    && record.status.StillPending?
  }

  lemma EnlistKeepsQueues(s: State, record: Record)
    requires Listed(s) && Queued(s) && Enlistable(s, record)
    ensures Queued(Enlist(s, record))
  {
    forall d
      ensures QueueOf(Enlist(s, record), d) == Unacked(Enlist(s, record).deliveries, Enlist(s, record).published, d)
    {
      EnlistQueue(s, record, d);
    }
  }

  lemma EnlistQueue(s: State, record: Record, d: string)
    requires Listed(s) && QueueOf(s, d) == Unacked(s.deliveries, s.published, d) && Enlistable(s, record)
    ensures QueueOf(Enlist(s, record), d) == Unacked(Enlist(s, record).deliveries, Enlist(s, record).published, d)
  {
    var id, after := record.message.deliveryId, s.deliveries[record.message.deliveryId := record];
    UnackedSnoc(after, s.published, id, d);
    UnackedIgnores(s.deliveries, after, s.published, d);
    assert Unacked(s.deliveries, s.published, d) + [] == Unacked(s.deliveries, s.published, d);
  }

  lemma UnackedSnoc(deliveries: map<string, Record>, order: seq<string>, id: string, device: string)
    ensures Unacked(deliveries, order + [id], device)
            == Unacked(deliveries, order, device)
               + if id in deliveries && deliveries[id].message.deviceId == device && deliveries[id].status.StillPending?
                 then [id] else []
  {
    assert (order + [id])[..|order|] == order;
  }

  lemma EnlistKeepsIndex(s: State, record: Record)
    requires Listed(s) && Indexed(s) && Routed(s) && Enlistable(s, record)
    ensures Listed(Enlist(s, record)) && Indexed(Enlist(s, record)) && Routed(Enlist(s, record))
  {
    EnlistKeepsList(s, record);
    EnlistKeepsRoutes(s, record);
  }

  lemma EnlistKeepsRoutes(s: State, record: Record)
    requires Routed(s) && Enlistable(s, record)
    ensures Routed(Enlist(s, record))
  {
  }

  lemma EnlistKeepsList(s: State, record: Record)
    requires Listed(s) && Enlistable(s, record)
    ensures Listed(Enlist(s, record))
  {
  }

  lemma PublishKeepsJoint(s: State, e: string, device: string, session: string, payload: string, newId: string)
    requires Joint(s) && newId != "" && newId !in s.deliveries
    requires Publish(s, e, device, session, payload, newId).Ok?
    ensures Joint(Publish(s, e, device, session, payload, newId).value.state)
  {
    if e !in s.events {
      var record := Record(Delivery(newId, e, device, session, payload), StillPending);
      EnlistKeepsQueues(s, record);
      EnlistKeepsIndex(s, record);
    }
  }

  lemma SettleKeepsQueues(s: State, id: string, status: AckStatus)
    requires Queued(s) && id in s.deliveries
    ensures Queued(Settle(s, id, status))
  {
    var t := Settle(s, id, status);
    forall d ensures QueueOf(t, d) == Unacked(t.deliveries, t.published, d) {
      UnackedAfterAck(s.deliveries, t.deliveries, s.published, id, d);
      if d != s.deliveries[id].message.deviceId {
        UnackedMembers(s.deliveries, s.published, d, id);
        DroppedAbsent(Unacked(s.deliveries, s.published, d), id);
      }
    }
  }

  lemma AckKeepsJoint(s: State, device: string, id: string, e: string, status: AckStatus)
    requires Joint(s) && Acknowledge(s, device, id, e, status).Ok?
    ensures Joint(Acknowledge(s, device, id, e, status).value)
  {
    SettleKeepsQueues(s, id, status);
    SettleKeepsIndex(s, id, status);
  }

  lemma SettleKeepsIndex(s: State, id: string, status: AckStatus)
    requires Listed(s) && Indexed(s) && Routed(s) && id in s.deliveries
    ensures Listed(Settle(s, id, status)) && Indexed(Settle(s, id, status)) && Routed(Settle(s, id, status))
  {
    var t := Settle(s, id, status);
    assert t.deliveries.Keys == s.deliveries.Keys;
    assert forall other :: other in s.deliveries ==> t.deliveries[other].message == s.deliveries[other].message;
  }

  lemma ApplyKeepsJoint(s: State, op: Op)
    requires Joint(s) && FreshIds(s, op)
    ensures Joint(Apply(s, op))
  {
    match op
    case DoPublish(e, d, n, p, newId) =>
      if Publish(s, e, d, n, p, newId).Ok? { PublishKeepsJoint(s, e, d, n, p, newId); }
    case DoAck(d, id, e, status) =>
      if Acknowledge(s, d, id, e, status).Ok? { AckKeepsJoint(s, d, id, e, status); }
    case _ =>
      var t := Apply(s, op);
      assert forall d :: QueueOf(t, d) == QueueOf(s, d);
  }

  // ------------------------------------------------------------------ histories

  /** A history in which every publication brings a fresh delivery id. */
  ghost predicate Proper(ops: seq<Op>) {
    ops == [] || (Proper(ops[..|ops| - 1]) && FreshIds(Replay(ops[..|ops| - 1]), ops[|ops| - 1]))
  }

  function Replay(ops: seq<Op>): State {
    if ops == [] then Init() else Apply(Replay(ops[..|ops| - 1]), ops[|ops| - 1])
  }

  /** The joint invariant holds after every history. */
  lemma {:induction false} ReachableIsJoint(ops: seq<Op>)
    requires Proper(ops)
    ensures Joint(Replay(ops))
  {
    if ops == [] {
      assert forall device :: QueueOf(Init(), device) == [];
    } else {
      ReachableIsJoint(ops[..|ops| - 1]);
      ApplyKeepsJoint(Replay(ops[..|ops| - 1]), ops[|ops| - 1]);
    }
  }

  /** What an operation can never undo: a delivery keeps its message, an acked
      one stays acked, and a session stays with its device. */
  ghost predicate Settles(s: State, t: State) {
    && (forall id :: id in s.deliveries ==>
          id in t.deliveries && t.deliveries[id].message == s.deliveries[id].message
          && (s.deliveries[id].status.Acked? ==> t.deliveries[id].status.Acked?))
    && (forall n :: n in s.sessions ==> n in t.sessions && t.sessions[n].device == s.sessions[n].device)
    && s.published <= t.published
  }

  lemma ApplySettles(s: State, op: Op)
    requires FreshIds(s, op)
    ensures Settles(s, Apply(s, op))
  {
  }

  lemma {:induction false} HistorySettles(ops: seq<Op>, more: seq<Op>)
    requires Proper(ops + more)
    ensures Settles(Replay(ops), Replay(ops + more))
    decreases |more|
  {
    if more == [] {
      assert ops + more == ops;
    } else {
      var all, but := ops + more, more[..|more| - 1];
      assert all[..|all| - 1] == ops + but;
      HistorySettles(ops, but);
      ApplySettles(Replay(ops + but), more[|more| - 1]);
    }
  }

  // --------------------------------------------------------------- main results

  /** deliver_pending sends exactly a session's unacked deliveries, once each
      and in the order in which they were published. */
  function Outstanding(deliveries: map<string, Record>, order: seq<string>, session: string): seq<Delivery> {
    if order == [] then []
    else
      var last := order[|order| - 1];
      Outstanding(deliveries, order[..|order| - 1], session)
      + if last in deliveries && deliveries[last].message.sessionId == session && deliveries[last].status.StillPending?
        then [deliveries[last].message] else []
  }

  lemma {:induction false} SelectedSnoc(deliveries: map<string, Record>, queue: seq<string>, id: string,
                                        session: string)
    ensures Selected(deliveries, queue + [id], session)
            == Selected(deliveries, queue, session)
               + if id in deliveries && deliveries[id].message.sessionId == session then [deliveries[id].message]
                 else []
  {
    if queue != [] {
      assert (queue + [id])[1..] == queue[1..] + [id];
      SelectedSnoc(deliveries, queue[1..], id, session);
    }
  }

  lemma SelectedNext(deliveries: map<string, Record>, queue: seq<string>, i: nat, session: string)
    requires i < |queue|
    ensures Selected(deliveries, queue[..i + 1], session)
            == Selected(deliveries, queue[..i], session)
               + if queue[i] in deliveries && deliveries[queue[i]].message.sessionId == session
                 then [deliveries[queue[i]].message] else []
  {
    SelectedSnoc(deliveries, queue[..i], queue[i], session);
    assert queue[..i + 1] == queue[..i] + [queue[i]];
  }

  lemma {:induction false} SelectedIsOutstanding(deliveries: map<string, Record>, order: seq<string>, device: string,
                                                 session: string)
    requires forall id :: id in deliveries && deliveries[id].message.sessionId == session ==>
               deliveries[id].message.deviceId == device
    ensures Selected(deliveries, Unacked(deliveries, order, device), session) == Outstanding(deliveries, order, session)
  {
    if order != [] {
      var last, rest := order[|order| - 1], order[..|order| - 1];
      SelectedIsOutstanding(deliveries, rest, device, session);
      SelectedSnoc(deliveries, Unacked(deliveries, rest, device), last, session);
      assert Unacked(deliveries, rest, device) + [] == Unacked(deliveries, rest, device);
      assert Selected(deliveries, Unacked(deliveries, rest, device), session) + []
             == Selected(deliveries, Unacked(deliveries, rest, device), session);
    }
  }

  lemma DeliverPendingIsExact(ops: seq<Op>, device: string, session: string)
    requires Proper(ops)
    requires session in Replay(ops).sessions && Replay(ops).sessions[session].device == device
    ensures var s := Replay(ops);
            DeliverPending(s, device, session) == Outstanding(s.deliveries, s.published, session)
  {
    ReachableIsJoint(ops);
    var s := Replay(ops);
    SelectedIsOutstanding(s.deliveries, s.published, device, session);
  }

  /** Publishing an event id again answers with the first delivery and changes nothing. */
  lemma RepublishIsIdempotent(ops: seq<Op>, e: string, d1: string, n1: string, p1: string, f1: string,
                              more: seq<Op>, d2: string, n2: string, p2: string, f2: string)
    requires Proper(ops + [DoPublish(e, d1, n1, p1, f1)] + more)
    requires Publish(Replay(ops), e, d1, n1, p1, f1).Ok?
    ensures var first := Publish(Replay(ops), e, d1, n1, p1, f1).value;
            var later := Replay(ops + [DoPublish(e, d1, n1, p1, f1)] + more);
            var second := Publish(later, e, d2, n2, p2, f2);
            && second.Ok? && second.value.duplicate && second.value.state == later
            && second.value.record.message == first.record.message
  {
    var op := DoPublish(e, d1, n1, p1, f1);
    var early := ops + [op];
    var first := Publish(Replay(ops), e, d1, n1, p1, f1).value;
    assert early[..|ops|] == ops;
    ProperPrefix(early, more);
    ReachableIsJoint(ops);
    ReachableIsJoint(early);
    ReachableIsJoint(early + more);
    HistorySettles(early, more);
    PublishedIsThere(Replay(ops), e, d1, n1, p1, f1);
    AnswersAgain(Replay(early + more), first.record.message.deliveryId, e, d2, n2, p2, f2);
  }

  lemma PublishedIsThere(s: State, e: string, device: string, session: string, payload: string, newId: string)
    requires Joint(s) && newId != "" && Publish(s, e, device, session, payload, newId).Ok?
    ensures var r := Publish(s, e, device, session, payload, newId).value;
            var id := r.record.message.deliveryId;
            id in r.state.deliveries && r.state.deliveries[id] == r.record && r.record.message.eventId == e
  {
  }

  lemma AnswersAgain(s: State, id: string, e: string, device: string, session: string, payload: string, newId: string)
    requires Joint(s) && id in s.deliveries && s.deliveries[id].message.eventId == e
    ensures Publish(s, e, device, session, payload, newId)
            == Ok(Published(s, s.deliveries[id], s.deliveries[id].message.deviceId in s.connections, true))
  {
  }

  lemma {:induction false} ProperPrefix(ops: seq<Op>, more: seq<Op>)
    requires Proper(ops + more)
    ensures Proper(ops)
    decreases |more|
  {
    if more == [] {
      assert ops + more == ops;
    } else {
      assert (ops + more)[..|ops + more| - 1] == ops + more[..|more| - 1];
      ProperPrefix(ops, more[..|more| - 1]);
    }
  }

  /** Neither a new connection of the device nor the end of this very socket. */
  predicate Keeps(op: Op, device: string, socket: nat) {
    && !(op.DoConnect? && op.device == device)
    && !(op.DoDisconnect? && op.device == device && op.socket == socket)
  }

  /** The newest connection of a device stays, through any further history and
      any number of disconnects of older sockets, until it is replaced or its
      own socket goes. */
  lemma {:induction false} NewestConnectionStays(ops: seq<Op>, device: string, socket: nat, more: seq<Op>)
    requires forall i :: 0 <= i < |more| ==> Keeps(more[i], device, socket)
    ensures var s := Replay(ops + [DoConnect(device, socket)] + more);
            device in s.connections && s.connections[device] == socket
    decreases |more|
  {
    var early := ops + [DoConnect(device, socket)];
    if more == [] {
      assert early + more == early && early[..|early| - 1] == ops;
    } else {
      var but, last := more[..|more| - 1], more[|more| - 1];
      assert (early + more)[..|early + more| - 1] == early + but;
      NewestConnectionStays(ops, device, socket, but);
      KeptByOne(Replay(early + but), last, device, socket);
    }
  }

  lemma KeptByOne(s: State, op: Op, device: string, socket: nat)
    requires device in s.connections && s.connections[device] == socket && Keeps(op, device, socket)
    ensures device in Apply(s, op).connections && Apply(s, op).connections[device] == socket
  {
  }
}
