/** What the steps of a handler leave on file, read from the stored sessions alone,
    in every state that the protocol can reach. */
module DaemonMeaning {
  import opened Common
  import opened Wake
  import opened WakeHistory
  import opened WakeMeaning
  import opened Daemon
  import opened DaemonInvariants

  /** The lifecycle a session is left with when the adapter returned `outcome`. */
  function LeftBy(outcome: Outcome, e: string, now: string): Lifecycle {
    match outcome
    case Success => Lifecycle(Idle, now, "")
    case Failure => Lifecycle(LifecycleFailed, now, "event " + e + " failed")
    case Unusable(reason) => Lifecycle(Crashed, now, Trim(reason))
  }

  /** The event is on file for the session. */
  ghost predicate Knows(store: Store, k: Key, e: string) {
    Lookup(store, k).Some? && Listed(Lookup(store, k).value.events, e)
  }

  /** The records of session `k` differ in event `e` only, which is closed with this
      status and has lost its payload; the session has this lifecycle. */
  ghost predicate ClosedOnFile(before: Store, after: Store, k: Key, e: string, status: EventStatus, now: string,
                               lifecycle: Lifecycle)
  {
    && OnlyIn(before, after, k)
    && Lookup(before, k).Some? && Lookup(after, k).Some?
    && var was, s := Lookup(before, k).value, Lookup(after, k).value;
       && s.key == was.key && s.createdAt == was.createdAt && s.permissions == was.permissions
       && ClosedIn(was.events, s.events, e, status, now)
       && s.lifecycle == lifecycle
  }

  ghost predicate Unchanged(before: Store, after: Store) {
    forall k :: Lookup(after, k) == Lookup(before, k)
  }

  lemma ClosingLeaves(ops: seq<Op>, k: Key, e: string, status: EventStatus, now: string)
    requires status != Pending
    ensures var before, after := Replay(ops), Apply(Replay(ops), Finish(k, e, status, now));
            if !Knows(before, k, e) then after == before
            else ClosedOnFile(before, after, k, e, status, now,
                              if status == Completed then Lifecycle(Idle, now, "")
                              else Lifecycle(LifecycleFailed, now, "event " + e + " failed"))
  {
    CompletionLeaves(ops, k, e, status, now);
  }

  /** What completing a run leaves on file, in every reachable state. A saved
      completion whose event is on file under the handler's own ids closes it, as
      completed after a success and as failed otherwise, drops its payload, and leaves
      every other record and session as it was. The session is idle, failed, or, when
      the binding is broken, crashed. */
  lemma CompleteLeaves(s: State, id: nat, now: string)
    requires Reachable(s) && Enabled(s, Complete(id, now, true))
    requires Knows(s.store, s.handlers[id].key, s.handlers[id].delivery.eventId)
    ensures var h := s.handlers[id];
            ClosedOnFile(s.store, Step(s, Complete(id, now, true)).store, h.key, h.delivery.eventId,
                         if h.phase.outcome == Success then Completed else Failed, now,
                         LeftBy(h.phase.outcome, h.delivery.eventId, now))
  {
    ReachableInv(s);
    var h := s.handlers[id];
    var e, outcome := h.delivery.eventId, h.phase.outcome;
    var closed := ClosedFirst(s, id, now);
    ClosingLeaves(s.ops, h.key, e, if outcome == Success then Completed else Failed, now);
    if outcome.Unusable? { CrashingLeaves(s.store, closed, h.key, e, now, outcome.reason); }
  }

  /** A saved completion is the closing of its event, and then, for a broken binding,
      the marking of its session. */
  lemma ClosedFirst(s: State, id: nat, now: string) returns (closed: Store)
    requires Enabled(s, Complete(id, now, true))
    ensures var h, after := s.handlers[id], Step(s, Complete(id, now, true)).store;
            var status := if h.phase.outcome == Success then Completed else Failed;
            && closed == Apply(s.store, Finish(h.key, h.delivery.eventId, status, now))
            && after == if h.phase.outcome.Unusable? then MarkCrashed(closed, h.key, h.phase.outcome.reason, now)
                        else closed
  {
    var h := s.handlers[id];
    closed := Apply(s.store, FinishOp(h, if h.phase.outcome == Success then Completed else Failed, now));
  }

  lemma CrashingLeaves(before: Store, closed: Store, k: Key, e: string, now: string, reason: string)
    requires ClosedOnFile(before, closed, k, e, Failed, now, LeftBy(Failure, e, now))
    ensures ClosedOnFile(before, MarkCrashed(closed, k, reason, now), k, e, Failed, now,
                         LeftBy(Unusable(reason), e, now))
  {
    var was := GatingLeaves(closed, k, reason, now);
  }

  /** A completion whose event is not on file changes nothing, except that a broken
      binding still marks its session as crashed; its records stay. */
  lemma CompleteLeavesUnknown(s: State, id: nat, now: string) returns (was: Session)
    requires Reachable(s) && Enabled(s, Complete(id, now, true))
    requires !Knows(s.store, s.handlers[id].key, s.handlers[id].delivery.eventId)
    ensures var h, after := s.handlers[id], Step(s, Complete(id, now, true)).store;
            && Begins(Lookup(s.store, h.key), h.key, now, was)
            && (!h.phase.outcome.Unusable? ==> Unchanged(s.store, after))
            && (h.phase.outcome.Unusable? ==>
                  && OnlyIn(s.store, after, h.key)
                  && Lookup(after, h.key)
                     == Some(was.(lifecycle := Lifecycle(Crashed, now, Trim(h.phase.outcome.reason)))))
  {
    ReachableInv(s);
    var h := s.handlers[id];
    var closed := ClosedFirst(s, id, now);
    ClosingLeaves(s.ops, h.key, h.delivery.eventId, if h.phase.outcome == Success then Completed else Failed, now);
    was := GatingLeaves(s.store, h.key, if h.phase.outcome.Unusable? then h.phase.outcome.reason else "", now);
  }

  /** What a refused wake leaves on file: its event is closed as failed and the
      session is failed, when the event is on file; otherwise nothing changes. */
  lemma DenyLeaves(s: State, id: nat, now: string)
    requires Reachable(s) && Enabled(s, Deny(id, now, true))
    ensures var h, after := s.handlers[id], Step(s, Deny(id, now, true)).store;
            if Knows(s.store, h.key, h.delivery.eventId)
            then ClosedOnFile(s.store, after, h.key, h.delivery.eventId, Failed, now,
                              Lifecycle(LifecycleFailed, now, "event " + h.delivery.eventId + " failed"))
            else Unchanged(s.store, after)
  {
    ReachableInv(s);
    ClosingLeaves(s.ops, s.handlers[id].key, s.handlers[id].delivery.eventId, Failed, now);
  }

  /** What starting the adapter leaves on file: the session carries just the ids that
      were authorized. */
  lemma StartLeaves(s: State, id: nat, now: string) returns (was: Session)
    requires Enabled(s, Start(id, now, true))
    ensures var h, after := s.handlers[id], Step(s, Start(id, now, true)).store;
            && Begins(Lookup(s.store, h.key), h.key, now, was)
            && OnlyIn(s.store, after, h.key)
            && Lookup(after, h.key) == Some(was.(permissions := h.phase.permissions))
  {
    was := PermissionsLeave(s.store, s.handlers[id].key, s.handlers[id].phase.permissions, now);
  }

  /** What recording a delivery leaves on file, and where its handler goes. It cannot
      be put on file when an id is blank. Otherwise a completed event is reported as
      done and nothing changes; any other is on file as pending, with its payload, and
      goes on exactly when the session is neither paused nor crashed. */
  lemma RecordLeaves(s: State, id: nat, now: string) returns (was: Session)
    requires Reachable(s) && Enabled(s, Record(id, now, true))
    ensures var h, after := s.handlers[id], Step(s, Record(id, now, true)).store;
            var k := Key(Trim(h.key.provider), Trim(h.key.session));
            var e, phase := Trim(h.delivery.eventId), Step(s, Record(id, now, true)).handlers[id].phase;
            && Begins(Lookup(s.store, k), k, now, was)
            && OnlyIn(s.store, after, k)
            && if k.provider == "" || k.session == "" || e == "" then after == s.store && phase == Leaving(false)
               else if CompletedOnFile(was.events, e) then Lookup(after, k) == Some(was) && phase == Leaving(true)
               else
                 && Lookup(after, k).Some?
                 && Taken(was, Lookup(after, k).value, e, h.delivery.deliveryId, h.delivery.payload, now)
                 && phase == if was.lifecycle.status == Paused || was.lifecycle.status == Crashed then Leaving(false)
                             else OnFile
  {
    ReachableInv(s);
    var h := s.handlers[id];
    DeliveryIsRefusedIff(s.store, h.key, h.delivery.eventId, h.delivery.deliveryId, h.delivery.payload, now);
    if RecordDelivery(s.store, h.key, h.delivery.eventId, h.delivery.deliveryId, h.delivery.payload, now).Ok? {
      was := DeliveryLeaves(s.ops, h.key, h.delivery.eventId, h.delivery.deliveryId, h.delivery.payload, now);
    } else {
      was := Ensured(s.store, TrimKey(h.key), now);
    }
  }

  /** A step whose save fails leaves the file as it was, and a delivery that cannot
      be put on file is refused. */
  lemma UnsavedLeaves(s: State, a: Action)
    requires Enabled(s, a)
    requires (a.Record? || a.Deny? || a.Start? || a.Complete?) && !a.saved
    ensures Step(s, a).store == s.store && Step(s, a).ops == s.ops
    ensures a.Record? ==> Step(s, a).handlers[a.id].phase == Leaving(false)
  {
  }

  /** A pause from outside changes the lifecycle of the session it names, and nothing else. */
  lemma PauseLeaves(s: State, key: Key, reason: string, now: string) returns (was: Session)
    ensures var after := Step(s, PauseSession(key, reason, now)).store;
            && Begins(Lookup(s.store, key), key, now, was)
            && OnlyIn(s.store, after, key)
            && Lookup(after, key) == Some(was.(lifecycle := Lifecycle(Paused, now, Trim(reason))))
  {
    was := GatingLeaves(s.store, key, reason, now);
  }

  /** A resume makes a session idle that is on file, and changes nothing otherwise. */
  lemma ResumptionLeaves(s: State, key: Key, now: string)
    ensures var was, after := Lookup(s.store, key), Step(s, ResumeSession(key, now)).store;
            && OnlyIn(s.store, after, key)
            && Lookup(after, key)
               == if was.None? then None else Some(was.value.(lifecycle := Lifecycle(Idle, now, "")))
  {
    ResumeLeaves(s.store, key, now);
  }
}
