/** The event store as the daemon holds it: a list of sessions that every
    operation updates in place, each proved against its value in Wake. */
module WakeStore {
  import opened Common
  import opened Wake

  /** The part of RecordDelivery that works on the session it has found:
      `e` is trimmed, and the caller writes the result back in place. */
  method RecordInto(session: Session, e: string, deliveryId: string, payload: string, now: string)
    returns (current: Session, duplicate: bool)
    ensures current == Recorded(session, e, deliveryId, payload, now)
    ensures duplicate == IsDuplicate(session, e)
  {
    current := session;
    var gated := Gated(current);
    for i := 0 to |current.events|
      invariant current == session
      invariant forall j :: 0 <= j < i ==> session.events[j].eventId != e
    {
      if current.events[i].eventId == e {
        IndexOfIs(session.events, e, i);
        if current.events[i].status.Completed? { return current, true; }
        current := current.(events := current.events[i := Retry(current.events[i], deliveryId, payload, now)]);
        if !gated {
          current := current.(lifecycle := Lifecycle(Running, now, "retrying event " + e));
        }
        return current, false;
      }
    }
    IndexOfAbsent(session.events, e);
    current := current.(events := current.events + [NewRecord(e, deliveryId, payload, now)]);
    if |current.events| > MAX_EVENT_HISTORY {
      current := current.(events := current.events[|current.events| - MAX_EVENT_HISTORY..]);
    }
    if !gated {
      current := current.(lifecycle := Lifecycle(Running, now, "processing event " + e));
    }
    return current, false;
  }

  class EventStore {
    var sessions: seq<Session>

    constructor ()
      ensures sessions == []
    {
      sessions := [];
    }

    /** The index of the session with this key, or -1. */
    method FindSession(key: Key) returns (index: int)
      ensures index == if Find(sessions, key) < |sessions| then Find(sessions, key) else -1
    {
      for i := 0 to |sessions|
        invariant forall j :: 0 <= j < i ==> sessions[j].key != key
      {
        if sessions[i].key == key {
          FindIsFirst(sessions, key, i);
          return i;
        }
      }
      FindAbsent(sessions, key);
      return -1;
    }

    method EnsureSession(key: Key, now: string) returns (index: nat)
      modifies this
      ensures index < |sessions| && sessions[index] == Ensured(old(sessions), key, now)
      ensures sessions == Put(old(sessions), sessions[index])
      ensures index == Find(old(sessions), key)
    {
      var found := FindSession(key);
      if found == -1 {
        sessions := sessions + [NewSession(key, now)];
        index := |sessions| - 1;
      } else {
        index := found;
      }
    }

    method Seen(key: Key, eventId: string) returns (seen: bool)
      ensures seen <==> Lookup(sessions, key).Some?
                        && exists r :: r in Lookup(sessions, key).value.events && r.eventId == eventId
    {
      var index := FindSession(key);
      if index == -1 { return false; }
      var events := sessions[index].events;
      for i := 0 to |events|
        invariant forall j :: 0 <= j < i ==> events[j].eventId != eventId
      {
        if events[i].eventId == eventId { return true; }
      }
      return false;
    }

    method RecordDelivery(key: Key, eventId: string, deliveryId: string, payload: string, now: string)
      returns (state: Option<Session>, duplicate: bool, error: Option<StoreError>)
      modifies this
      ensures match Wake.RecordDelivery(old(sessions), key, eventId, deliveryId, payload, now)
              case Ok((store, s, d)) => error == None && state == Some(s) && duplicate == d && sessions == store
              case Err(e) => error == Some(e) && state == None && !duplicate && sessions == old(sessions)
    {
      var k, e := TrimKey(key), Trim(eventId);
      if k.provider == "" || k.session == "" || e == "" {
        return None, false, Some(MissingIds);
      }
      var index := EnsureSession(k, now);
      var current, seen := RecordInto(sessions[index], e, deliveryId, payload, now);
      sessions := sessions[index := current];
      return Some(current), seen, None;
    }

    method CompleteEvent(key: Key, eventId: string, status: EventStatus, now: string)
      returns (state: Option<Session>, error: Option<StoreError>)
      modifies this
      ensures match Wake.CompleteEvent(old(sessions), key, eventId, status, now)
              case Ok((store, s)) => error == None && state == Some(s) && sessions == store
              case Err(e) => error == Some(e) && state == None && sessions == old(sessions)
    {
      if !status.Completed? && !status.Failed? { return None, Some(UnsupportedStatus); }
      var index := FindSession(key);
      if index == -1 { return None, Some(NoSession); }
      var current := sessions[index];
      var i := 0;
      while i < |current.events| && current.events[i].eventId != eventId
        invariant 0 <= i <= |current.events|
        invariant forall j :: 0 <= j < i ==> current.events[j].eventId != eventId
      {
        i := i + 1;
      }
      if i == |current.events| {
        IndexOfAbsent(current.events, eventId);
        return None, Some(NotRecorded);
      }
      IndexOfIs(current.events, eventId, i);
      sessions := sessions[index := current.(events := current.events[i := Close(current.events[i], status, now)])];
      var lifecycle := Lifecycle(Idle, now, "");
      if status.Failed? {
        lifecycle := Lifecycle(LifecycleFailed, now, "event " + eventId + " failed");
      }
      sessions := sessions[index := sessions[index].(lifecycle := lifecycle)];
      return Some(sessions[index]), None;
    }

    method Pause(key: Key, reason: string, now: string) returns (state: Session)
      modifies this
      ensures sessions == Wake.Pause(old(sessions), key, reason, now)
      ensures Some(state) == Lookup(sessions, key)
    {
      var index := EnsureSession(key, now);
      sessions := sessions[index := sessions[index].(lifecycle := Lifecycle(Paused, now, Trim(reason)))];
      LookupPut(old(sessions), sessions[index], key);
      return sessions[index];
    }

    method MarkCrashed(key: Key, reason: string, now: string) returns (state: Session)
      modifies this
      ensures sessions == Wake.MarkCrashed(old(sessions), key, reason, now)
      ensures Some(state) == Lookup(sessions, key)
    {
      var index := EnsureSession(key, now);
      sessions := sessions[index := sessions[index].(lifecycle := Lifecycle(Crashed, now, Trim(reason)))];
      LookupPut(old(sessions), sessions[index], key);
      return sessions[index];
    }

    method Resume(key: Key, now: string) returns (state: Option<Session>, error: Option<StoreError>)
      modifies this
      ensures match Wake.Resume(old(sessions), key, now)
              case Ok((store, s)) => error == None && state == Some(s) && sessions == store
              case Err(e) => error == Some(e) && state == None && sessions == old(sessions)
    {
      var index := FindSession(key);
      if index == -1 { return None, Some(NoSession); }
      sessions := sessions[index := sessions[index].(lifecycle := Lifecycle(Idle, now, ""))];
      return Some(sessions[index]), None;
    }

    method SetPermissions(key: Key, permissions: seq<string>, now: string) returns (state: Session)
      modifies this
      ensures sessions == Wake.SetPermissions(old(sessions), key, permissions, now)
      ensures Some(state) == Lookup(sessions, key)
    {
      var index := EnsureSession(key, now);
      sessions := sessions[index := sessions[index].(permissions := permissions)];
      LookupPut(old(sessions), sessions[index], key);
      return sessions[index];
    }
  }

  /** Pending: the unprocessed records, oldest first. */
  method Pending(state: Session) returns (pending: seq<EventRecord>)
    ensures pending == PendingEvents(state.events)
    ensures forall r :: r in pending <==> r in state.events && r.status.Pending?
  {
    pending := [];
    for i := 0 to |state.events|
      invariant PendingEvents(state.events) == pending + PendingEvents(state.events[i..])
      invariant forall r :: r in pending <==> r in state.events[..i] && r.status.Pending?
    {
      if state.events[i].status.Pending? {
        pending := pending + [state.events[i]];
      }
    }
  }
}
