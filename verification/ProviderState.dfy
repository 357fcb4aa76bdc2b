/** The provider's state object. Its methods run under one lock, so each is an
    atomic update of the five collections. */
module ProviderState {
  import opened Common
  import opened Protocol
  import opened Provider

  class AwpState {
    var connections: map<string, nat>
    var sessions: map<string, Binding>
    var published: seq<string>
    var deliveries: map<string, Record>
    var events: map<string, string>
    var pending: map<string, seq<string>>

    constructor ()
      ensures View() == Init()
    {
      connections, sessions, published := map[], map[], [];
      deliveries, events, pending := map[], map[], map[];
    }

    function View(): State
      reads this
    {
      State(connections, sessions, published, deliveries, events, pending)
    }

    method Connect(device: string, socket: nat) returns (previous: Option<nat>)
      modifies this`connections
      ensures View() == Provider.Connect(old(View()), device, socket)
      ensures previous == if device in old(connections) then Some(old(connections)[device]) else None
    {
      previous := if device in connections then Some(connections[device]) else None;
      connections := connections[device := socket];
    }

    method Disconnect(device: string, socket: nat)
      modifies this`connections
      ensures View() == Provider.Disconnect(old(View()), device, socket)
    {
      if device in connections && connections[device] == socket {
        connections := connections - {device};
      }
    }

    method Bind(device: string, session: string, adapter: string) returns (result: Result<Binding, ProviderError>)
      modifies this`sessions
      ensures match Provider.Bind(old(View()), device, session, adapter)
              case Ok(s) => result == Ok(Binding(device, adapter)) && View() == s
              case Err(e) => result == Err(e) && View() == old(View())
    {
      var value := Binding(device, adapter);
      if session in sessions && sessions[session].device != device { return Err(OtherDevice); }
      sessions := sessions[session := value];
      return Ok(value);
    }

    method Publish(eventId: string, device: string, session: string, payload: string, newId: string)
      returns (result: Result<Published, ProviderError>)
      modifies this
      ensures result == Provider.Publish(old(View()), eventId, device, session, payload, newId)
      ensures View() == if result.Ok? then result.value.state else old(View())
    {
      if eventId in events && events[eventId] != "" && events[eventId] in deliveries {
        var known := deliveries[events[eventId]];
        return Ok(Published(View(), known, known.message.deviceId in connections, true));
      }
      if session !in sessions { return Err(SessionNotFound); }
      if sessions[session].device != device { return Err(DeviceMismatch); }
      var record := Record(Delivery(newId, eventId, device, session, payload), StillPending);
      published := published + [newId];
      deliveries := deliveries[newId := record];
      events := events[eventId := newId];
      pending := pending[device := (if device in pending then pending[device] else []) + [newId]];
      return Ok(Published(View(), record, device in connections, false));
    }

    method Acknowledge(device: string, deliveryId: string, eventId: string, status: AckStatus)
      returns (error: Option<ProviderError>)
      modifies this`deliveries, this`pending
      ensures match Provider.Acknowledge(old(View()), device, deliveryId, eventId, status)
              case Ok(s) => error == None && View() == s
              case Err(e) => error == Some(e) && View() == old(View())
    {
      if deliveryId !in deliveries || deliveries[deliveryId].message.eventId != eventId {
        return Some(DeliveryNotFound);
      }
      if deliveries[deliveryId].message.deviceId != device { return Some(NotYourDelivery); }
      var record := deliveries[deliveryId].(status := Acked(status));
      deliveries := deliveries[deliveryId := record];
      var queue := if device in pending then pending[device] else [];
      var kept: seq<string> := [];
      for i := 0 to |queue|
        invariant kept == Dropped(queue[..i], deliveryId)
        invariant pending == old(pending) && deliveries == old(deliveries)[deliveryId := record]
      {
        DroppedSnoc(queue[..i], queue[i], deliveryId);
        assert queue[..i + 1] == queue[..i] + [queue[i]];
        if queue[i] != deliveryId { kept := kept + [queue[i]]; }
      }
      assert queue[..|queue|] == queue;
      pending := pending[device := kept];
      return None;
    }

    /** Selects under the lock, then sends until one send fails; `reached` says
        how many sends succeed. */
    method DeliverPending(device: string, session: string, reached: nat) returns (sent: seq<Delivery>)
      ensures var selected := Provider.DeliverPending(View(), device, session);
              sent == if reached < |selected| then selected[..reached] else selected
    {
      var queue := if device in pending then pending[device] else [];
      var messages: seq<Delivery> := [];
      for i := 0 to |queue|
        invariant messages == Selected(deliveries, queue[..i], session)
      {
        SelectedNext(deliveries, queue, i, session);
        if queue[i] in deliveries && deliveries[queue[i]].message.sessionId == session {
          messages := messages + [deliveries[queue[i]].message];
        }
      }
      assert queue[..|queue|] == queue;
      sent := [];
      while |sent| < |messages| && |sent| < reached
        invariant |sent| <= |messages| && |sent| <= reached && sent == messages[..|sent|]
        decreases |messages| - |sent|
      {
        sent := sent + [messages[|sent|]];
      }
    }
  }
}
