/** A closed gate, and the handlers that can slip through it: while there are none,
    the gate stays closed and nothing wakes. */
module DaemonGate {
  import opened Common
  import opened Protocol
  import opened Wake
  import opened WakeHistory
  import opened WakeJournal
  import opened Daemon
  import opened DaemonInvariants

  predicate IsGated(store: Store, k: Key) {
    Lookup(store, k).Some? && Gated(Lookup(store, k).value)
  }

  /** A handler past recording whose completion, if it finds its event, leaves an
      idle or failed lifecycle behind: not the one of a broken binding. */
  predicate WillOpen(h: Handler) {
    && InFlight(h.phase)
    && !(h.phase.Ran? && h.phase.outcome.Unusable?)
    && Trim(h.delivery.eventId) == h.delivery.eventId
  }

  /** A handler through which binding `k` can slip past a closed gate: one of its
      own that has not started the adapter yet, or one that works under the ids of
      the stored session and will open it. */
  predicate MaySlip(h: Handler, k: Key) {
    || (h.key == k && (h.phase.OnFile? || h.phase.Authorized?))
    || (h.key == TrimKey(k) && WillOpen(h))
  }

  ghost predicate Slips(s: State, k: Key) {
    exists id :: id in s.handlers && MaySlip(s.handlers[id], k)
  }

  ghost predicate NoResume(actions: seq<Action>, k: Key) {
    forall i :: 0 <= i < |actions| ==> !(actions[i].ResumeSession? && actions[i].key == k)
  }

  ghost predicate NoneResumes(actions: seq<Action>) {
    forall i :: 0 <= i < |actions| ==> !actions[i].ResumeSession?
  }

  /** Some action of the behaviour starts the adapter for binding `k`. */
  predicate Wakes(s: State, actions: seq<Action>, k: Key)
    requires Possible(s, actions)
    decreases |actions|
  {
    actions != [] &&
    (|| (actions[0].Start? && s.handlers[actions[0].id].key == k)
     || Wakes(Step(s, actions[0]), actions[1..], k))
  }

  // ------------------------------------------------------- the gate that holds

  lemma GateSurvives(store: Store, op: Op, k: Key)
    requires IsGated(store, k)
    requires Target(op) == k ==> !op.DoResume? && (op.Finish? ==> Written(Lookup(store, k), op).None?)
    ensures IsGated(Apply(store, op), k)
  {
    ApplyIsLocal(store, op, k);
    if Target(op) == k { EffectIsWritten(Lookup(store, k), op); }
  }

  lemma MutateKeepsGate(s: State, op: Op, saved: bool, k: Key)
    requires IsGated(s.store, k)
    requires Target(op) == k ==> !op.DoResume? && (op.Finish? ==> Written(Lookup(s.store, k), op).None?)
    ensures IsGated(Mutate(s, op, saved).store, k)
  {
    GateSurvives(s.store, op, k);
  }

  /** No record has an untrimmed id, so completing one changes nothing. */
  lemma UntrimmedWritesNothing(s: State, k: Key, e: string, status: EventStatus, now: string)
    requires s.store == Replay(s.ops) && Trim(e) != e
    ensures Written(Lookup(s.store, k), Finish(k, e, status, now)).None?
  {
    FoundOnlyIfTrimmed(s.ops, k, e);
  }

  /** A closed gate stays closed under recording, and lets no delivery through. */
  lemma RecordKeepsGate(s: State, id: nat, now: string, saved: bool, k: Key)
    requires Inv(s) && Enabled(s, Record(id, now, saved)) && TrimKey(k) == k && IsGated(s.store, k)
    ensures IsGated(RecordOrGate(s, id, now, saved).store, k)
    ensures TrimKey(s.handlers[id].key) == k ==> !InFlight(RecordOrGate(s, id, now, saved).handlers[id].phase)
  {
    var h := s.handlers[id];
    var d := h.delivery;
    var op := Deliver(h.key, d.eventId, d.deliveryId, d.payload, now);
    var spec := RecordDelivery(s.store, h.key, d.eventId, d.deliveryId, d.payload, now);
    if spec.Ok? && saved {
      GateSurvives(s.store, op, k);
      RecordedIsPending(s.store, op);
      assert Apply(s.store, op) == spec.value.0;
    }
  }

  lemma CompleteKeepsGate(s: State, id: nat, now: string, saved: bool, k: Key)
    requires Inv(s) && Enabled(s, Complete(id, now, saved)) && IsGated(s.store, k)
    requires s.handlers[id].key == k ==> !WillOpen(s.handlers[id])
    ensures IsGated(Step(s, Complete(id, now, saved)).store, k)
  {
    var h := s.handlers[id];
    var outcome := h.phase.outcome;
    if outcome.Unusable? {
      UnusableKeepsGate(s, h, outcome, now, saved, k);
    } else {
      var status := if outcome.Success? then Completed else Failed;
      if h.key == k { UntrimmedWritesNothing(s, k, h.delivery.eventId, status, now); }
      MutateKeepsGate(s, FinishOp(h, status, now), saved, k);
    }
  }

  lemma UnusableKeepsGate(s: State, h: Handler, outcome: Outcome, now: string, saved: bool, k: Key)
    requires outcome.Unusable? && IsGated(s.store, k)
    ensures IsGated(CompleteRun(s, h, outcome, now, saved).store, k)
  {
    var op, crash := FinishOp(h, Failed, now), DoCrash(h.key, outcome.reason, now);
    if h.key != k {
      MutateKeepsGate(s, op, saved, k);
      MutateKeepsGate(Mutate(s, op, saved), crash, saved, k);
    } else if saved {
      CrashGates(Apply(s.store, op), k, outcome.reason, now);
    }
  }

  lemma CrashGates(store: Store, k: Key, reason: string, now: string)
    ensures IsGated(Apply(store, DoCrash(k, reason, now)), k)
  {
    ApplyIsLocal(store, DoCrash(k, reason, now), k);
    EffectIsWritten(Lookup(store, k), DoCrash(k, reason, now));
  }

  /** The session binding `k` is stored under is gated, and nothing can slip. */
  ghost predicate Held(s: State, k: Key) {
    IsGated(s.store, TrimKey(k)) && !Slips(s, k)
  }

  /** No handler that works under these ids will open the session. */
  ghost predicate NoneOpens(s: State, k: Key) {
    forall id :: id in s.handlers && s.handlers[id].key == k ==> !WillOpen(s.handlers[id])
  }

  lemma DenyKeepsGate(s: State, id: nat, now: string, saved: bool, k: Key)
    requires Inv(s) && Enabled(s, Deny(id, now, saved)) && IsGated(s.store, k)
    requires s.handlers[id].key == k ==> !WillOpen(s.handlers[id])
    ensures IsGated(Step(s, Deny(id, now, saved)).store, k)
  {
    var h := s.handlers[id];
    if h.key == k { UntrimmedWritesNothing(s, k, h.delivery.eventId, Failed, now); }
    MutateKeepsGate(s, FinishOp(h, Failed, now), saved, k);
  }

  lemma StepKeepsGate(s: State, a: Action, k: Key)
    requires Inv(s) && Enabled(s, a) && TrimKey(k) == k && IsGated(s.store, k) && NoneOpens(s, k)
    requires !(a.ResumeSession? && a.key == k)
    ensures IsGated(Step(s, a).store, k)
  {
    match a
    case Record(id, now, saved) => RecordKeepsGate(s, id, now, saved, k);
    case Deny(id, now, saved) => DenyKeepsGate(s, id, now, saved, k);
    case Complete(id, now, saved) => CompleteKeepsGate(s, id, now, saved, k);
    case Start(id, now, saved) =>
      MutateKeepsGate(s, DoGrant(s.handlers[id].key, s.handlers[id].phase.permissions, now), saved, k);
    case PauseSession(key, reason, now) => MutateKeepsGate(s, DoPause(key, reason, now), true, k);
    case ResumeSession(key, now) => MutateKeepsGate(s, DoResume(key, now), true, k);
    case _ =>
  }

  predicate Acts(a: Action, id: nat) {
    !a.PauseSession? && !a.ResumeSession? && !a.CrashDaemon? && a.id == id
  }

  lemma OthersStand(s: State, a: Action, id: nat)
    requires Enabled(s, a) && !Acts(a, id) && id in Step(s, a).handlers
    ensures id in s.handlers && Step(s, a).handlers[id] == s.handlers[id]
  {
    if OfHandler(a) { var p := Moved(s, a); }
  }

  /** A step lets no handler slip that could not slip before. */
  lemma StepSlipsNot(s: State, a: Action, k: Key, id: nat)
    requires Inv(s) && Enabled(s, a) && Held(s, k) && id in Step(s, a).handlers
    ensures !MaySlip(Step(s, a).handlers[id], k)
  {
    TrimKeyIdempotent(k);
    if !Acts(a, id) {
      OthersStand(s, a, id);
    } else if a.Record? {
      RecordKeepsGate(s, id, a.now, a.saved, TrimKey(k));
    } else {
      OwnMoveSlipsNot(s, a, k, id);
    }
  }

  lemma OwnMoveSlipsNot(s: State, a: Action, k: Key, id: nat)
    requires Enabled(s, a) && Acts(a, id) && !a.Record? && !Slips(s, k) && id in Step(s, a).handlers
    ensures !MaySlip(Step(s, a).handlers[id], k)
  {
    if OfHandler(a) {
      var p := Moved(s, a);
      assert !MaySlip(s.handlers[id], k);
    }
  }

  lemma StepKeepsHeld(s: State, a: Action, k: Key)
    requires Inv(s) && Enabled(s, a) && Held(s, k)
    requires !(a.ResumeSession? && a.key == TrimKey(k))
    ensures Held(Step(s, a), k)
    ensures a.Start? ==> s.handlers[a.id].key != k
  {
    TrimKeyIdempotent(k);
    StepKeepsGate(s, a, TrimKey(k));
    forall id | id in Step(s, a).handlers ensures !MaySlip(Step(s, a).handlers[id], k) {
      StepSlipsNot(s, a, k, id);
    }
    assert a.Start? ==> !MaySlip(s.handlers[a.id], k);
  }

  /** Nothing wakes a held binding before a resume of its stored session. */
  lemma {:induction false} HeldNeverWakes(s: State, actions: seq<Action>, k: Key)
    requires Inv(s) && Possible(s, actions) && Held(s, k) && NoResume(actions, TrimKey(k))
    ensures !Wakes(s, actions, k) && Held(Exec(s, actions), k)
    decreases |actions|
  {
    if actions != [] {
      StepKeepsHeld(s, actions[0], k);
      StepKeepsInv(s, actions[0]);
      HeldNeverWakes(Step(s, actions[0]), actions[1..], k);
    }
  }

  /** A delivery that meets the gate is refused, but its event is on file as
      pending with its payload, and the pause or crash is as it was. */
  lemma HeldDeliveryIsRecorded(s: State, id: nat, now: string)
    requires Reachable(s) && Enabled(s, Record(id, now, true))
    requires Usable(TrimKey(s.handlers[id].key)) && IsGated(s.store, TrimKey(s.handlers[id].key))
    requires Trim(s.handlers[id].delivery.eventId) != ""
    ensures var h := s.handlers[id];
            var k, e := TrimKey(h.key), Trim(h.delivery.eventId);
            var t := Step(s, Record(id, now, true));
            && Lookup(t.store, k).Some?
            && var before, after := Lookup(s.store, k).value, Lookup(t.store, k).value;
            && after.lifecycle == before.lifecycle
            && t.handlers[id].phase == Leaving(IsDuplicate(before, e))
            && if IsDuplicate(before, e) then after == before
               else HasPending(t.store, k, e)
                    && after.events[IndexOf(after.events, e)].payload == h.delivery.payload
  {
    ReachableInv(s);
    var h := s.handlers[id];
    var d := h.delivery;
    var op := Deliver(h.key, d.eventId, d.deliveryId, d.payload, now);
    RecordedIsPending(s.store, op);
    var t := Step(s, Record(id, now, true));
    JournalStep(s.ops, op, TrimKey(h.key));
    StoredRecords(t.ops, TrimKey(h.key));
    LatestAfterDelivery(s.ops, op, TrimKey(h.key));
    StepKeepsInv(s, Record(id, now, true));
  }
}
