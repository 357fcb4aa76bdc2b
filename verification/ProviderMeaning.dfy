/** What each operation of the provider leaves, and where its deliveries come from:
    every one of them is the first accepted publication of its event, unaltered. */
module ProviderMeaning {
  import opened Common
  import opened Protocol
  import opened Provider

  /** The session the publication names is bound to the device it names. */
  predicate OnTarget(s: State, op: Op)
    requires op.DoPublish?
  {
    op.session in s.sessions && s.sessions[op.session].device == op.device
  }

  predicate IsKnown(s: State, e: string) {
    exists id :: id in s.deliveries && s.deliveries[id].message.eventId == e
  }

  predicate Publishes(op: Op, m: Delivery) {
    op == DoPublish(m.eventId, m.deviceId, m.sessionId, m.payload, m.deliveryId)
  }

  /** Operation `i` is the first publication of its event that names a session bound to
      the device it names. */
  ghost predicate FirstAccepted(ops: seq<Op>, i: nat) {
    && i < |ops| && ops[i].DoPublish? && OnTarget(Replay(ops[..i]), ops[i])
    && forall j :: 0 <= j < i && ops[j].DoPublish? && ops[j].eventId == ops[i].eventId ==>
         !OnTarget(Replay(ops[..j]), ops[j])
  }

  // ---------------------------------------------------------------- publications

  lemma KnownIsIndexed(s: State, e: string)
    requires Joint(s)
    ensures IsKnown(s, e) <==> e in s.events
  {
  }

  /** What publishing a new event answers and leaves. It is refused for an unknown
      session or one of another device. Otherwise the answer is the message with just
      these values, pending, not a duplicate, and online exactly when the device is
      connected; the message is on record under its id, last in the queue of its
      device, and nothing else is different. */
  lemma FreshPublication(s: State, e: string, device: string, session: string, payload: string, newId: string)
    requires Joint(s) && newId != "" && newId !in s.deliveries && !IsKnown(s, e)
    ensures var r := Publish(s, e, device, session, payload, newId);
            if session !in s.sessions then r == Err(SessionNotFound)
            else if s.sessions[session].device != device then r == Err(DeviceMismatch)
            else
              && r.Ok? && r.value.record == Record(Delivery(newId, e, device, session, payload), StillPending)
              && !r.value.duplicate && (r.value.online <==> device in s.connections)
              && r.value.state.connections == s.connections && r.value.state.sessions == s.sessions
              && r.value.state.published == s.published + [newId]
              && r.value.state.deliveries == s.deliveries[newId := r.value.record]
              && forall d :: QueueOf(r.value.state, d) == QueueOf(s, d) + if d == device then [newId] else []
  {
    KnownIsIndexed(s, e);
  }

  /** Publishing a known event, with whatever target, answers with its delivery as it
      stands, as a duplicate, online exactly when the device of that delivery is
      connected, and changes nothing. */
  lemma KnownPublication(s: State, id: string, device: string, session: string, payload: string, newId: string)
    requires Joint(s) && id in s.deliveries
    ensures var r := Publish(s, s.deliveries[id].message.eventId, device, session, payload, newId);
            && r.Ok? && r.value.state == s && r.value.record == s.deliveries[id] && r.value.duplicate
            && (r.value.online <==> s.deliveries[id].message.deviceId in s.connections)
  {
  }

  lemma ApplyPublish(s: State, op: Op)
    requires Joint(s) && FreshIds(s, op) && op.DoPublish?
    ensures Apply(s, op).deliveries
            == if IsKnown(s, op.eventId) || !OnTarget(s, op) then s.deliveries
               else s.deliveries[op.newId := Record(Delivery(op.newId, op.eventId, op.device, op.session, op.payload),
                                                    StillPending)]
  {
    if IsKnown(s, op.eventId) {
      var id :| id in s.deliveries && s.deliveries[id].message.eventId == op.eventId;
      KnownPublication(s, id, op.device, op.session, op.payload, op.newId);
    } else {
      FreshPublication(s, op.eventId, op.device, op.session, op.payload, op.newId);
    }
  }

  lemma OthersPublishNothing(s: State, op: Op)
    requires !op.DoPublish?
    ensures Apply(s, op).deliveries.Keys == s.deliveries.Keys
    ensures forall id :: id in s.deliveries ==> Apply(s, op).deliveries[id].message == s.deliveries[id].message
  {
  }

  /** Every accepted publication of an event makes it known from then on. */
  lemma {:induction false} AcceptedIsKnown(ops: seq<Op>, j: nat)
    requires Proper(ops) && j < |ops| && ops[j].DoPublish? && OnTarget(Replay(ops[..j]), ops[j])
    ensures IsKnown(Replay(ops), ops[j].eventId)
    decreases |ops|
  {
    var before, op := ops[..|ops| - 1], ops[|ops| - 1];
    ReachableIsJoint(before);
    if j < |before| {
      assert before[..j] == ops[..j] && before[j] == ops[j];
      AcceptedIsKnown(before, j);
      ApplySettles(Replay(before), op);
      var id :| id in Replay(before).deliveries && Replay(before).deliveries[id].message.eventId == ops[j].eventId;
      assert id in Replay(ops).deliveries && Replay(ops).deliveries[id].message.eventId == ops[j].eventId;
    } else {
      ApplyPublish(Replay(before), op);
      if !IsKnown(Replay(before), op.eventId) {
        assert Replay(ops).deliveries[op.newId].message.eventId == op.eventId;
      } else {
        var id :| id in Replay(before).deliveries && Replay(before).deliveries[id].message.eventId == op.eventId;
        assert Replay(ops).deliveries[id].message.eventId == op.eventId;
      }
    }
  }

  /** One operation adds a delivery only by publishing a new event on its target. */
  lemma DeliveryIsOldOrNew(before: seq<Op>, op: Op, id: string)
    requires Proper(before + [op]) && id in Replay(before + [op]).deliveries
    ensures var was, m := Replay(before), Replay(before + [op]).deliveries[id].message;
            if id in was.deliveries then m == was.deliveries[id].message
            else op.DoPublish? && OnTarget(was, op) && !IsKnown(was, op.eventId) && id == op.newId && Publishes(op, m)
  {
    assert (before + [op])[..|before|] == before;
    ReachableIsJoint(before);
    if op.DoPublish? { ApplyPublish(Replay(before), op); } else { OthersPublishNothing(Replay(before), op); }
  }

  /** Every delivery was published, with exactly the event id, device, session, payload
      and delivery id it has, by the first accepted publication of its event. */
  lemma {:induction false} DeliveriesWerePublished(ops: seq<Op>, id: string) returns (i: nat)
    requires Proper(ops) && id in Replay(ops).deliveries
    ensures FirstAccepted(ops, i) && Publishes(ops[i], Replay(ops).deliveries[id].message) && ops[i].newId == id
  {
    var before, op := ops[..|ops| - 1], ops[|ops| - 1];
    assert ops == before + [op];
    DeliveryIsOldOrNew(before, op, id);
    if id in Replay(before).deliveries {
      i := DeliveriesWerePublished(before, id);
      FirstAcceptedLater(before, op, i);
    } else {
      i := |before|;
      NewIsFirst(before, op);
    }
  }

  lemma NewIsFirst(before: seq<Op>, op: Op)
    requires Proper(before) && op.DoPublish? && OnTarget(Replay(before), op) && !IsKnown(Replay(before), op.eventId)
    ensures FirstAccepted(before + [op], |before|)
  {
    var ops := before + [op];
    assert ops[..|before|] == before;
    forall j | 0 <= j < |before| && ops[j].DoPublish? && ops[j].eventId == op.eventId
      ensures !OnTarget(Replay(ops[..j]), ops[j])
    {
      assert ops[..j] == before[..j];
      if OnTarget(Replay(before[..j]), before[j]) { AcceptedIsKnown(before, j); }
    }
  }

  lemma FirstAcceptedLater(before: seq<Op>, op: Op, i: nat)
    requires FirstAccepted(before, i)
    ensures FirstAccepted(before + [op], i) && (before + [op])[i] == before[i]
  {
    var ops := before + [op];
    assert ops[..i] == before[..i];
    forall j | 0 <= j < i && ops[j].DoPublish? && ops[j].eventId == ops[i].eventId
      ensures !OnTarget(Replay(ops[..j]), ops[j])
    {
      assert ops[..j] == before[..j] && ops[j] == before[j];
    }
  }

  lemma FirstAcceptedIsNew(ops: seq<Op>, i: nat)
    requires FirstAccepted(ops, i) && Proper(ops[..i])
    ensures !IsKnown(Replay(ops[..i]), ops[i].eventId)
  {
    var before := ops[..i];
    assert forall j :: 0 <= j < i ==> before[..j] == ops[..j];
    if IsKnown(Replay(before), ops[i].eventId) {
      var id :| id in Replay(before).deliveries && Replay(before).deliveries[id].message.eventId == ops[i].eventId;
      var j := DeliveriesWerePublished(before, id);
    }
  }

  lemma NewIsOnRecord(before: seq<Op>, op: Op)
    requires Proper(before + [op]) && op.DoPublish?
    requires OnTarget(Replay(before), op) && !IsKnown(Replay(before), op.eventId)
    ensures var after := Replay(before + [op]);
            op.newId in after.deliveries && Publishes(op, after.deliveries[op.newId].message)
  {
    assert (before + [op])[..|before|] == before;
    ReachableIsJoint(before);
    ApplyPublish(Replay(before), op);
  }

  /** The first accepted publication of an event is on record as it was published,
      whatever comes after it. */
  lemma AcceptedIsDelivered(ops: seq<Op>, i: nat)
    requires Proper(ops) && FirstAccepted(ops, i)
    ensures ops[i].newId in Replay(ops).deliveries
    ensures Publishes(ops[i], Replay(ops).deliveries[ops[i].newId].message)
  {
    var before, rest := ops[..i], ops[i + 1..];
    var upTo := before + [ops[i]];
    assert ops == upTo + rest;
    ProperPrefix(upTo, rest);
    ProperPrefix(before, [ops[i]]);
    FirstAcceptedIsNew(ops, i);
    NewIsOnRecord(before, ops[i]);
    HistorySettles(upTo, rest);
  }

  // --------------------------------------------------------------- other operations

  /** An acknowledgement is refused for a delivery that is not known under its event,
      or that of another device. Otherwise the delivery takes the status and leaves the
      queue of its device, where everything else keeps its place; nothing else is
      different. */
  lemma AcknowledgementLeaves(s: State, device: string, id: string, e: string, status: AckStatus)
    ensures var r := Acknowledge(s, device, id, e, status);
            if id !in s.deliveries || s.deliveries[id].message.eventId != e then r == Err(DeliveryNotFound)
            else if s.deliveries[id].message.deviceId != device then r == Err(NotYourDelivery)
            else
              && r.Ok? && r.value.connections == s.connections && r.value.sessions == s.sessions
              && r.value.published == s.published && r.value.events == s.events
              && r.value.deliveries == s.deliveries[id := Record(s.deliveries[id].message, Acked(status))]
              && (forall d :: d != device ==> QueueOf(r.value, d) == QueueOf(s, d))
              && LeftOf(QueueOf(s, device), QueueOf(r.value, device), id)
  {
    if id in s.deliveries { DroppedIsLeft(QueueOf(s, s.deliveries[id].message.deviceId), id); }
  }

  /** `left` holds what the queue holds, but for this id. That both are in the order of
      publication is part of what holds in every reachable state. */
  ghost predicate LeftOf(queue: seq<string>, left: seq<string>, id: string) {
    (forall x :: x in left <==> x in queue && x != id) && (id !in queue ==> left == queue)
  }

  lemma {:induction false} DroppedMembers(queue: seq<string>, id: string, x: string)
    ensures x in Dropped(queue, id) <==> x in queue && x != id
  {
    if queue != [] {
      assert queue == [queue[0]] + queue[1..];
      DroppedMembers(queue[1..], id, x);
    }
  }

  lemma DroppedIsLeft(queue: seq<string>, id: string)
    ensures LeftOf(queue, Dropped(queue, id), id)
  {
    forall x ensures x in Dropped(queue, id) <==> x in queue && x != id {
      DroppedMembers(queue, id, x);
    }
    if id !in queue { DroppedAbsent(queue, id); }
  }

  /** A session is bound to the device that asks, with its adapter, unless another
      device has it. */
  lemma BindLeaves(s: State, device: string, session: string, adapter: string, n: string)
    ensures var r := Bind(s, device, session, adapter);
            && (r.Err? <==> session in s.sessions && s.sessions[session].device != device)
            && (r.Err? ==> r.error == OtherDevice)
            && (r.Ok? ==>
                  && r.value.connections == s.connections && r.value.published == s.published
                  && r.value.deliveries == s.deliveries && r.value.events == s.events && r.value.pending == s.pending
                  && (n in r.value.sessions <==> n == session || n in s.sessions)
                  && (n in r.value.sessions ==>
                        r.value.sessions[n] == if n == session then Binding(device, adapter) else s.sessions[n]))
  {
  }

  /** The device has the socket of its last connection, until that very socket goes. */
  predicate ConnectedBy(ops: seq<Op>, device: string, socket: nat) {
    && ops != []
    && var op := ops[|ops| - 1];
       if op.DoConnect? && op.device == device then op.socket == socket
       else if op.DoDisconnect? && op.device == device && op.socket == socket then false
       else ConnectedBy(ops[..|ops| - 1], device, socket)
  }

  lemma {:induction false} ConnectionMeans(ops: seq<Op>, device: string, socket: nat)
    ensures var s := Replay(ops);
            device in s.connections && s.connections[device] == socket <==> ConnectedBy(ops, device, socket)
  {
    if ops != [] { ConnectionMeans(ops[..|ops| - 1], device, socket); }
  }
}
