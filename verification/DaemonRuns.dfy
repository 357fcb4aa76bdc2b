/** Properties of whole runs of the daemon: what a completed record proves, and
    when an event can be run a second time. */
module DaemonRuns {
  import opened Common
  import opened Wake
  import opened WakeHistory
  import opened WakeJournal
  import opened Daemon
  import opened DaemonInvariants

  // ---------------------------------------------- completed means it was run

  /** Some adapter run under just these ids succeeded. */
  ghost predicate Succeeded(runs: seq<Run>, k: Key, e: string) {
    exists i :: 0 <= i < |runs| && runs[i].outcome.Success? && runs[i].key == k && runs[i].eventId == e
  }

  /** A run under these ids, or under what the store makes of them. */
  ghost predicate WasRun(runs: seq<Run>, k: Key, e: string) {
    Succeeded(runs, k, e) || Succeeded(runs, TrimKey(k), Trim(e))
  }

  ghost predicate CompletedAt(store: Store, k: Key, i: int) {
    0 <= i < |Events(Lookup(store, k))| && Events(Lookup(store, k))[i].status.Completed?
  }

  ghost predicate StoreTruthful(store: Store, runs: seq<Run>) {
    forall k, i :: CompletedAt(store, k, i) ==> Succeeded(runs, k, Events(Lookup(store, k))[i].eventId)
  }

  predicate ClaimsSuccess(p: Phase) {
    (p.Leaving? && p.ok) || (p.Answered? && p.ok)
  }

  /** What a handler has to show for its phase: the run itself, or one that counts. */
  ghost predicate Shows(runs: seq<Run>, h: Handler) {
    && (h.phase.Ran? && h.phase.outcome.Success? ==> Succeeded(runs, h.key, h.delivery.eventId))
    && (ClaimsSuccess(h.phase) ==> WasRun(runs, h.key, h.delivery.eventId))
  }

  ghost predicate Truthful(s: State) {
    && s.store == Replay(s.ops)
    && StoreTruthful(s.store, s.runs)
    && forall id :: id in s.handlers ==> Shows(s.runs, s.handlers[id])
  }

  /** A completed record was completed before, or this operation completed it. */
  lemma CompletedBefore(ops: seq<Op>, op: Op, k: Key, i: int) returns (j: int)
    requires CompletedAt(Apply(Replay(ops), op), k, i)
    ensures var e := Events(Lookup(Apply(Replay(ops), op), k))[i].eventId;
            || (CompletedAt(Replay(ops), k, j) && Events(Lookup(Replay(ops), k))[j].eventId == e)
            || (op.Finish? && op.status.Completed? && op.key == k && op.eventId == e && TrimKey(k) == k && Trim(e) == e)
  {
    var store := Replay(ops);
    ApplyIsLocal(store, op, k);
    j := i;
    if Target(op) == k {
      var here := Lookup(store, k);
      EffectIsWritten(here, op);
      if op.Deliver? && Written(here, op).Some? {
        var s := if here.Some? then here.value else NewSession(k, op.now);
        j := DeliveredWasThere(s, op, i);
      } else if op.Finish? && Written(here, op).Some? {
        FinishedWasThere(here.value, op, i);
        StoredIdsAreTrimmed(ops, k, i);
      }
    }
  }

  lemma FinishedWasThere(s: Session, op: Op, i: int)
    requires op.Finish?
    requires var after := Closed(s, op.eventId, op.status, op.now).events;
             0 <= i < |after| && after[i].status.Completed?
    ensures var after := Closed(s, op.eventId, op.status, op.now).events;
            && |after| == |s.events| && s.events[i].eventId == after[i].eventId
            && (s.events[i] == after[i] || (op.status.Completed? && op.eventId == after[i].eventId))
  {
  }

  lemma StoredIdsAreTrimmed(ops: seq<Op>, k: Key, i: int)
    requires 0 <= i < |Events(Lookup(Replay(ops), k))|
    ensures var e := Events(Lookup(Replay(ops), k))[i].eventId; TrimKey(k) == k && Trim(e) == e
  {
    BoundedHistoryRefinesJournal(ops, k);
    JournalKeeps(ops, k);
    NewestIsThere(Journal(ops, k), i);
  }

  lemma NewestIsThere(log: seq<EventRecord>, i: int)
    requires 0 <= i < |Newest(log)|
    requires forall j :: 0 <= j < |log| ==> log[j].eventId == Trim(log[j].eventId)
    ensures log != [] && Newest(log)[i].eventId == Trim(Newest(log)[i].eventId)
  {
    assert Newest(log)[i] == log[|log| - |Newest(log)| + i];
  }

  lemma DeliveredWasThere(s: Session, op: Op, i: int) returns (j: int)
    requires op.Deliver?
    requires var after := Recorded(s, Trim(op.eventId), op.deliveryId, op.payload, op.now).events;
             0 <= i < |after| && after[i].status.Completed?
    ensures var after := Recorded(s, Trim(op.eventId), op.deliveryId, op.payload, op.now).events;
            0 <= j < |s.events| && s.events[j] == after[i]
  {
    var e := Trim(op.eventId);
    var longer := s.events + [NewRecord(e, op.deliveryId, op.payload, op.now)];
    j := i;
    if IndexOf(s.events, e) == |s.events| {
      j := i + |longer| - |Newest(longer)|;
      assert Newest(longer)[i] == longer[j];
    }
  }

  lemma MutateTruthful(s: State, op: Op, saved: bool)
    requires s.store == Replay(s.ops) && StoreTruthful(s.store, s.runs)
    requires op.Finish? && op.status.Completed? ==> Succeeded(s.runs, op.key, op.eventId)
    ensures var t := Mutate(s, op, saved);
            && t.store == Replay(t.ops) && StoreTruthful(t.store, t.runs)
            && t == s.(store := t.store, ops := t.ops)
  {
    if saved {
      var t := Mutate(s, op, saved);
      ReplaySnoc(s.ops, op);
      forall k, i | CompletedAt(t.store, k, i)
        ensures Succeeded(t.runs, k, Events(Lookup(t.store, k))[i].eventId)
      {
        var j := CompletedBefore(s.ops, op, k, i);
      }
    }
  }

  lemma MoreRuns(runs: seq<Run>, r: Run, k: Key, e: string)
    ensures Succeeded(runs, k, e) ==> Succeeded(runs + [r], k, e)
    ensures r.outcome.Success? ==> Succeeded(runs + [r], r.key, r.eventId)
  {
    var all := runs + [r];
    assert all[|runs|] == r;
    if Succeeded(runs, k, e) {
      var i :| 0 <= i < |runs| && runs[i].outcome.Success? && runs[i].key == k && runs[i].eventId == e;
      assert all[i] == runs[i];
    }
  }

  /** A duplicate was completed before, so it was run. */
  lemma DuplicateWasRun(s: State, h: Handler, now: string)
    requires StoreTruthful(s.store, s.runs)
    requires var d := h.delivery;
             var spec := RecordDelivery(s.store, h.key, d.eventId, d.deliveryId, d.payload, now);
             spec.Ok? && spec.value.2
    ensures Succeeded(s.runs, TrimKey(h.key), Trim(h.delivery.eventId))
  {
    var k, e := TrimKey(h.key), Trim(h.delivery.eventId);
    var events := Ensured(s.store, k, now).events;
    assert events == Events(Lookup(s.store, k));
    assert CompletedAt(s.store, k, IndexOf(events, e));
  }

  lemma RecordTruthful(s: State, id: nat, now: string, saved: bool)
    requires Truthful(s) && Enabled(s, Record(id, now, saved))
    ensures Truthful(RecordOrGate(s, id, now, saved))
  {
    var h := s.handlers[id];
    var d := h.delivery;
    var spec := RecordDelivery(s.store, h.key, d.eventId, d.deliveryId, d.payload, now);
    if spec.Ok? && saved {
      MutateTruthful(s, Deliver(h.key, d.eventId, d.deliveryId, d.payload, now), true);
      if spec.value.2 { DuplicateWasRun(s, h, now); }
    }
  }

  lemma CompleteTruthful(s: State, id: nat, now: string, saved: bool)
    requires Truthful(s) && Enabled(s, Complete(id, now, saved))
    ensures Truthful(Step(s, Complete(id, now, saved)))
  {
    var h := s.handlers[id];
    CompleteRunTruthful(s, h, h.phase.outcome, now, saved);
    MoveTruthful(CompleteRun(s, h, h.phase.outcome, now, saved), id, Leaving(h.phase.outcome.Success?));
  }

  lemma CompleteRunTruthful(s: State, h: Handler, outcome: Outcome, now: string, saved: bool)
    requires Truthful(s)
    requires outcome.Success? ==> Succeeded(s.runs, h.key, h.delivery.eventId)
    ensures var t := CompleteRun(s, h, outcome, now, saved);
            Truthful(t) && t == s.(store := t.store, ops := t.ops)
  {
    var op := FinishOp(h, if outcome.Success? then Completed else Failed, now);
    MutateTruthful(s, op, saved);
    if outcome.Unusable? {
      MutateTruthful(Mutate(s, op, saved), DoCrash(h.key, outcome.reason, now), saved);
    }
  }

  lemma MoveTruthful(s: State, id: nat, phase: Phase)
    requires Truthful(s) && id in s.handlers && Shows(s.runs, s.handlers[id].(phase := phase))
    ensures Truthful(MoveTo(s, id, phase))
  {
  }

  lemma ReturnTruthful(s: State, id: nat, outcome: Outcome)
    requires Truthful(s) && Enabled(s, Return(id, outcome))
    ensures Truthful(Step(s, Return(id, outcome)))
  {
    var h, t := s.handlers[id], Step(s, Return(id, outcome));
    var r := Run(h.key, h.delivery.eventId, h.phase.permissions, outcome);
    forall k, i | CompletedAt(t.store, k, i) ensures Succeeded(t.runs, k, Events(Lookup(t.store, k))[i].eventId) {
      assert CompletedAt(s.store, k, i);
      MoreRuns(s.runs, r, k, Events(Lookup(t.store, k))[i].eventId);
    }
    forall other | other in t.handlers ensures Shows(t.runs, t.handlers[other]) {
      var g := t.handlers[other];
      assert other != id ==> Shows(s.runs, g);
      MoreRuns(s.runs, r, g.key, g.delivery.eventId);
      MoreRuns(s.runs, r, TrimKey(g.key), Trim(g.delivery.eventId));
    }
  }

  lemma StepKeepsTruthful(s: State, a: Action)
    requires Truthful(s) && Enabled(s, a)
    ensures Truthful(Step(s, a))
  {
    match a
    case Record(id, now, saved) => RecordTruthful(s, id, now, saved);
    case Deny(id, now, saved) => MutateTruthful(s, FinishOp(s.handlers[id], Failed, now), saved);
    case Start(id, now, saved) =>
      MutateTruthful(s, DoGrant(s.handlers[id].key, s.handlers[id].phase.permissions, now), saved);
    case Return(id, outcome) => ReturnTruthful(s, id, outcome);
    case Complete(id, now, saved) => CompleteTruthful(s, id, now, saved);
    case PauseSession(key, reason, now) => MutateTruthful(s, DoPause(key, reason, now), true);
    case ResumeSession(key, now) => MutateTruthful(s, DoResume(key, now), true);
    case _ =>
  }

  lemma {:induction false} ExecKeepsTruthful(s: State, actions: seq<Action>)
    requires Truthful(s) && Possible(s, actions)
    ensures Truthful(Exec(s, actions))
    decreases |actions|
  {
    if actions != [] {
      StepKeepsTruthful(s, actions[0]);
      ExecKeepsTruthful(Step(s, actions[0]), actions[1..]);
    }
  }

  /** In every reachable state, for any bindings: an event the store calls
      completed had a successful adapter run under just those ids, and an event a
      handler is about to report as completed had one under its own ids or under the
      trimmed ones, even after crashes and failed saves. */
  lemma CompletedEventsWereRun(s: State)
    requires Reachable(s)
    ensures StoreTruthful(s.store, s.runs)
    ensures forall id :: id in s.handlers && ClaimsSuccess(s.handlers[id].phase) ==>
              WasRun(s.runs, s.handlers[id].key, s.handlers[id].delivery.eventId)
  {
    var actions :| Possible(Init(s.bound), actions) && Exec(Init(s.bound), actions) == s;
    ExecKeepsTruthful(Init(s.bound), actions);
    assert forall id :: id in s.handlers ==> Shows(s.runs, s.handlers[id]);
  }

  // ------------------------------------------------------------ no double wake

  /** Entry `p` of the journal of session `k` is event `e`, completed. */
  ghost predicate DoneAt(s: State, k: Key, e: string, p: nat) {
    var log := Journal(s.ops, k);
    p < |log| && log[p].eventId == e && log[p].status.Completed?
  }

  lemma MutateKeepsDone(s: State, op: Op, saved: bool, k: Key, e: string, p: nat)
    requires DoneAt(s, k, e, p)
    requires op.Finish? && Target(op) == k ==> InWindow(Journal(s.ops, k), op.eventId) != p
    ensures DoneAt(Mutate(s, op, saved), k, e, p)
  {
    JournalStep(s.ops, op, k);
    if Target(op) == k { CompletedEntryStays(Journal(s.ops, k), op, p); }
  }

  lemma CompletedEntryStays(log: seq<EventRecord>, op: Op, p: nat)
    requires p < |log| && log[p].status.Completed?
    requires op.Finish? ==> InWindow(log, op.eventId) != p
    ensures p < |Journaled(log, op)| && Journaled(log, op)[p] == log[p]
  {
  }

  /** The completion of an in-flight event closes no record that is completed. */
  lemma FinishSparesDone(s: State, id: nat, k: Key, e: string, p: nat)
    requires Inv(s) && id in s.handlers && InFlight(s.handlers[id].phase)
    requires s.handlers[id].key == k && DoneAt(s, k, e, p)
    ensures InWindow(Journal(s.ops, k), s.handlers[id].delivery.eventId) != p
  {
    var log := Journal(s.ops, k);
    if InWindow(log, s.handlers[id].delivery.eventId) == p {
      JournalKeeps(s.ops, k);
      assert Safe(s, id);
      assert CompletedInWindow(log, e, p);
    }
  }

  lemma StepKeepsDone(s: State, a: Action, k: Key, e: string, p: nat)
    requires Inv(s) && Enabled(s, a) && DoneAt(s, k, e, p)
    ensures DoneAt(Step(s, a), k, e, p)
  {
    match a
    case Record(id, now, saved) =>
      var h, d := s.handlers[id], s.handlers[id].delivery;
      MutateKeepsDone(s, Deliver(h.key, d.eventId, d.deliveryId, d.payload, now), true, k, e, p);
    case Deny(id, now, saved) =>
      if s.handlers[id].key == k { FinishSparesDone(s, id, k, e, p); }
      MutateKeepsDone(s, FinishOp(s.handlers[id], Failed, now), saved, k, e, p);
    case Start(id, now, saved) =>
      MutateKeepsDone(s, DoGrant(s.handlers[id].key, s.handlers[id].phase.permissions, now), saved, k, e, p);
    case Complete(id, now, saved) =>
      var h := s.handlers[id];
      var op := FinishOp(h, if h.phase.outcome.Success? then Completed else Failed, now);
      if h.key == k { FinishSparesDone(s, id, k, e, p); }
      MutateKeepsDone(s, op, saved, k, e, p);
      if h.phase.outcome.Unusable? {
        MutateKeepsDone(Mutate(s, op, saved), DoCrash(h.key, h.phase.outcome.reason, now), saved, k, e, p);
      }
    case PauseSession(key, reason, now) => MutateKeepsDone(s, DoPause(key, reason, now), true, k, e, p);
    case ResumeSession(key, now) => MutateKeepsDone(s, DoResume(key, now), true, k, e, p);
    case _ =>
  }

  lemma {:induction false} ExecKeepsDone(s: State, actions: seq<Action>, k: Key, e: string, p: nat)
    requires Inv(s) && Possible(s, actions) && DoneAt(s, k, e, p)
    ensures Inv(Exec(s, actions)) && DoneAt(Exec(s, actions), k, e, p)
    decreases |actions|
  {
    if actions != [] {
      StepKeepsInv(s, actions[0]);
      StepKeepsDone(s, actions[0], k, e, p);
      ExecKeepsDone(Step(s, actions[0]), actions[1..], k, e, p);
    }
  }

  /** A completed record stays behind. In every behaviour, for any bindings, a
      handler that is about to start the adapter for the event of a completed
      record of its own session comes at least 500 appends after that record. */
  lemma CompletedRecordIsNotRunAgain(s: State, k: Key, e: string, p: nat, actions: seq<Action>, again: nat)
    requires Reachable(s) && DoneAt(s, k, e, p) && Possible(s, actions)
    requires var t := Exec(s, actions);
             InPhase(t, again, (f: Phase) => f.Authorized?)
             && t.handlers[again].key == k && Trim(t.handlers[again].delivery.eventId) == e
    ensures |Journal(Exec(s, actions).ops, k)| - p - 1 >= MAX_EVENT_HISTORY
  {
    ReachableInv(s);
    ExecKeepsDone(s, actions, k, e, p);
    var t := Exec(s, actions);
    JournalKeeps(t.ops, k);
    assert Safe(t, again);
    assert !CompletedInWindow(Journal(t.ops, k), e, p);
  }

  /** Every handler that is about to start the adapter for the event of a completed
      record of this stored session, under whatever binding, comes at least 500
      appends after that record. */
  ghost predicate CompletedStaysBehind(s: State, k: Key) {
    forall id, p: nat | InPhase(s, id, (f: Phase) => f.Authorized?) && TrimKey(s.handlers[id].key) == k
                        && DoneAt(s, k, Trim(s.handlers[id].delivery.eventId), p) ::
      |Journal(s.ops, k)| - p - 1 >= MAX_EVENT_HISTORY
  }

  /** Only handlers under trimmed ids are authorized. */
  ghost predicate AuthorizedAreTrimmed(s: State) {
    forall id :: InPhase(s, id, (f: Phase) => f.Authorized?) ==> TrimKey(s.handlers[id].key) == s.handlers[id].key
  }

  lemma AuthorizedStayBehind(s: State, k: Key)
    requires Reachable(s) && AuthorizedAreTrimmed(s)
    ensures CompletedStaysBehind(s, k)
  {
    forall id, p: nat | InPhase(s, id, (f: Phase) => f.Authorized?) && TrimKey(s.handlers[id].key) == k
                        && DoneAt(s, k, Trim(s.handlers[id].delivery.eventId), p)
      ensures |Journal(s.ops, k)| - p - 1 >= MAX_EVENT_HISTORY
    {
      CompletedRecordIsNotRunAgain(s, k, Trim(s.handlers[id].delivery.eventId), p, [], id);
    }
  }

  /** Neither the binding's ids nor the event id carry outer white space. */
  predicate HasTrimmedIds(h: Handler) {
    TrimKey(h.key) == h.key && Trim(h.delivery.eventId) == h.delivery.eventId
  }

  /** Entry `q` of a log is a record of this event. */
  predicate IsRecord(log: seq<EventRecord>, e: string, q: nat) {
    q < |log| && log[q].eventId == e
  }

  /** The log has an open record of the event, at entry `from` or later. */
  ghost predicate HasOpen(log: seq<EventRecord>, e: string, from: nat) {
    exists q: nat :: from <= q && IsRecord(log, e, q) && log[q].status.Pending?
  }

  /** Every handler of the binding that is past recording has an open record of its
      event in the journal, at entry `from` or later. */
  ghost predicate OpenSince(s: State, k: Key, from: nat) {
    forall id :: id in s.handlers && s.handlers[id].key == k && InFlight(s.handlers[id].phase) ==>
      HasOpen(Journal(s.ops, k), Trim(s.handlers[id].delivery.eventId), from)
  }

  /** Entry `from` has left the window, or is the first. */
  predicate IsPast(log: seq<EventRecord>, from: nat) {
    from == 0 || from + MAX_EVENT_HISTORY <= |log|
  }

  lemma SlotKeepsOpen(log: seq<EventRecord>, i: nat, r: EventRecord, e: string, from: nat)
    requires HasOpen(log, e, from) && i < |log| && r.eventId == log[i].eventId && r.status.Pending?
    ensures HasOpen(log[i := r], e, from)
  {
    var q: nat :| from <= q && IsRecord(log, e, q) && log[q].status.Pending?;
    assert IsRecord(log[i := r], e, q);
  }

  lemma AppendKeepsOpen(log: seq<EventRecord>, r: EventRecord, e: string, from: nat)
    requires HasOpen(log, e, from)
    ensures HasOpen(log + [r], e, from)
  {
    var q: nat :| from <= q && IsRecord(log, e, q) && log[q].status.Pending?;
    assert IsRecord(log + [r], e, q);
  }

  lemma JournaledKeepsOpen(log: seq<EventRecord>, op: Op, e: string, from: nat)
    requires HasOpen(log, e, from) && !op.Finish?
    ensures HasOpen(Journaled(log, op), e, from)
  {
    if op.Deliver? {
      var i := InWindow(log, Trim(op.eventId));
      AppendKeepsOpen(log, NewRecord(Trim(op.eventId), op.deliveryId, op.payload, op.now), e, from);
      if i < |log| { SlotKeepsOpen(log, i, Retry(log[i], op.deliveryId, op.payload, op.now), e, from); }
    }
  }

  ghost predicate KeepsIds(log: seq<EventRecord>, after: seq<EventRecord>) {
    |log| <= |after| && forall i :: 0 <= i < |log| ==> after[i].eventId == log[i].eventId
  }

  lemma SlotKeepsIds(log: seq<EventRecord>, i: nat, r: EventRecord)
    requires i < |log| && r.eventId == log[i].eventId
    ensures KeepsIds(log, log[i := r]) && KeepsIds(log, log) && KeepsIds(log, log + [r])
  {
  }

  lemma JournaledGrows(log: seq<EventRecord>, op: Op)
    ensures KeepsIds(log, Journaled(log, op))
  {
    match op
    case Deliver(_, e, d, p, now) =>
      var i := InWindow(log, Trim(e));
      if i < |log| { SlotKeepsIds(log, i, Retry(log[i], d, p, now)); }
    case Finish(_, e, status, now) =>
      var i := InWindow(log, e);
      if i < |log| && !status.Pending? { SlotKeepsIds(log, i, Close(log[i], status, now)); }
    case _ =>
  }

  lemma DeliveryIsOpen(log: seq<EventRecord>, op: Op, from: nat)
    requires op.Deliver? && Target(op).provider != "" && Target(op).session != "" && Trim(op.eventId) != ""
    requires IsPast(log, from)
    requires var i := InWindow(log, Trim(op.eventId)); i < |log| ==> !log[i].status.Completed?
    ensures HasOpen(Journaled(log, op), Trim(op.eventId), from)
  {
    var i := InWindow(log, Trim(op.eventId));
    var q := if i < |log| then i else |log|;
    assert IsRecord(Journaled(log, op), Trim(op.eventId), q) && Journaled(log, op)[q].status.Pending?;
  }

  lemma MutateKeepsOpen(s: State, op: Op, saved: bool, k: Key, e: string, from: nat)
    requires HasOpen(Journal(s.ops, k), e, from) && (op.Finish? ==> op.key != k)
    ensures HasOpen(Journal(Mutate(s, op, saved).ops, k), e, from)
  {
    JournalStep(s.ops, op, k);
    if Target(op) == k { JournaledKeepsOpen(Journal(s.ops, k), op, e, from); }
  }

  /** An open record stays open unless a handler of the binding closes it. */
  lemma StepKeepsOpen(s: State, a: Action, k: Key, e: string, from: nat)
    requires Enabled(s, a) && HasOpen(Journal(s.ops, k), e, from)
    requires a.Deny? || a.Complete? ==> s.handlers[a.id].key != k
    ensures HasOpen(Journal(Step(s, a).ops, k), e, from)
  {
    match a
    case Record(id, now, saved) =>
      var h, d := s.handlers[id], s.handlers[id].delivery;
      MutateKeepsOpen(s, Deliver(h.key, d.eventId, d.deliveryId, d.payload, now), true, k, e, from);
    case Deny(id, now, saved) => MutateKeepsOpen(s, FinishOp(s.handlers[id], Failed, now), saved, k, e, from);
    case Start(id, now, saved) =>
      MutateKeepsOpen(s, DoGrant(s.handlers[id].key, s.handlers[id].phase.permissions, now), saved, k, e, from);
    case Complete(id, now, saved) =>
      var h := s.handlers[id];
      var op := FinishOp(h, if h.phase.outcome.Success? then Completed else Failed, now);
      MutateKeepsOpen(s, op, saved, k, e, from);
      if h.phase.outcome.Unusable? {
        MutateKeepsOpen(Mutate(s, op, saved), DoCrash(h.key, h.phase.outcome.reason, now), saved, k, e, from);
      }
    case PauseSession(key, reason, now) => MutateKeepsOpen(s, DoPause(key, reason, now), true, k, e, from);
    case ResumeSession(key, now) => MutateKeepsOpen(s, DoResume(key, now), true, k, e, from);
    case _ =>
  }

  /** A recorded delivery that is let through has its record open. */
  lemma RecordOpens(s: State, id: nat, now: string, saved: bool, from: nat)
    requires Inv(s) && Enabled(s, Record(id, now, saved)) && TrimKey(s.handlers[id].key) == s.handlers[id].key
    requires IsPast(Journal(s.ops, s.handlers[id].key), from)
    requires InFlight(Step(s, Record(id, now, saved)).handlers[id].phase)
    ensures var h := s.handlers[id];
            HasOpen(Journal(Step(s, Record(id, now, saved)).ops, h.key), Trim(h.delivery.eventId), from)
  {
    var h, d := s.handlers[id], s.handlers[id].delivery;
    var op, log := Deliver(h.key, d.eventId, d.deliveryId, d.payload, now), Journal(s.ops, h.key);
    JournalStep(s.ops, op, h.key);
    DuplicateIffCompletedInWindow(s.ops, h.key, d.eventId, d.deliveryId, d.payload, now);
    assert !CompletedInWindow(log, Trim(d.eventId), InWindow(log, Trim(d.eventId)));
    DeliveryIsOpen(log, op, from);
  }

  lemma HandlerStaysOpen(s: State, a: Action, k: Key, from: nat, id: nat)
    requires Inv(s) && Enabled(s, a) && OpenSince(s, k, from) && TrimKey(k) == k && IsPast(Journal(s.ops, k), from)
    requires var t := Step(s, a); id in t.handlers && t.handlers[id].key == k && InFlight(t.handlers[id].phase)
    ensures HasOpen(Journal(Step(s, a).ops, k), Trim(Step(s, a).handlers[id].delivery.eventId), from)
  {
    if OfHandler(a) {
      var p := Moved(s, a);
      if a.id == id && a.Record? {
        RecordOpens(s, id, a.now, a.saved, from);
      } else {
        if a.id != id { LockExcludes(s, id); }
        StepKeepsOpen(s, a, k, Trim(s.handlers[id].delivery.eventId), from);
      }
    } else {
      StepKeepsOpen(s, a, k, Trim(s.handlers[id].delivery.eventId), from);
    }
  }

  lemma {:induction false} OpsGrow(before: seq<Op>, after: seq<Op>, k: Key)
    requires before <= after
    ensures KeepsIds(Journal(before, k), Journal(after, k))
    decreases |after|
  {
    if before == after {
    } else {
      var shorter, last := after[..|after| - 1], after[|after| - 1];
      OpsGrow(before, shorter, k);
      if Target(last) == k { JournaledGrows(Journal(shorter, k), last); }
    }
  }

  lemma StepAppends(s: State, a: Action)
    requires Enabled(s, a)
    ensures s.ops <= Step(s, a).ops
  {
  }

  lemma {:induction false} ExecAppends(s: State, actions: seq<Action>)
    requires Possible(s, actions)
    ensures s.ops <= Exec(s, actions).ops
    decreases |actions|
  {
    if actions != [] {
      StepAppends(s, actions[0]);
      ExecAppends(Step(s, actions[0]), actions[1..]);
    }
  }

  lemma {:induction false} ExecKeepsOpen(s: State, actions: seq<Action>, k: Key, from: nat)
    requires Inv(s) && Possible(s, actions) && OpenSince(s, k, from)
    requires TrimKey(k) == k && IsPast(Journal(s.ops, k), from)
    ensures OpenSince(Exec(s, actions), k, from)
    decreases |actions|
  {
    if actions != [] {
      var t := Step(s, actions[0]);
      forall id | id in t.handlers && t.handlers[id].key == k && InFlight(t.handlers[id].phase)
        ensures HasOpen(Journal(t.ops, k), Trim(t.handlers[id].delivery.eventId), from)
      {
        HandlerStaysOpen(s, actions[0], k, from, id);
      }
      StepAppends(s, actions[0]);
      OpsGrow(s.ops, t.ops, k);
      StepKeepsInv(s, actions[0]);
      ExecKeepsOpen(t, actions[1..], k, from);
    }
  }

  /** In a reachable state every event in flight under trimmed ids has an open record. */
  lemma InFlightIsOpen(s: State, id: nat)
    requires Reachable(s) && id in s.handlers && InFlight(s.handlers[id].phase)
    requires TrimKey(s.handlers[id].key) == s.handlers[id].key
    ensures HasOpen(Journal(s.ops, s.handlers[id].key), Trim(s.handlers[id].delivery.eventId), 0)
  {
    var actions :| Possible(Init(s.bound), actions) && Exec(Init(s.bound), actions) == s;
    ExecKeepsOpen(Init(s.bound), actions, s.handlers[id].key, 0);
  }

  /** A saved, successful completion closes the event's record in the window. */
  lemma CompleteMakesDone(s: State, id: nat, now: string)
    requires Inv(s) && Enabled(s, Complete(id, now, true)) && s.handlers[id].phase.outcome.Success?
    requires HasTrimmedIds(s.handlers[id])
    ensures var k, e := s.handlers[id].key, s.handlers[id].delivery.eventId;
            var p := InWindow(Journal(s.ops, k), e);
            p < |Journal(s.ops, k)| ==> DoneAt(Step(s, Complete(id, now, true)), k, e, p)
  {
    var h := s.handlers[id];
    JournalStep(s.ops, FinishOp(h, Completed, now), h.key);
  }

  /** After its completion no handler of the binding is past recording. */
  lemma CompleteLeavesNone(s: State, id: nat, now: string, saved: bool, from: nat)
    requires Inv(s) && Enabled(s, Complete(id, now, saved))
    ensures OpenSince(Step(s, Complete(id, now, saved)), s.handlers[id].key, from)
  {
    LockExcludes(s, id);
    var t := Step(s, Complete(id, now, saved));
    var p := Moved(s, Complete(id, now, saved));
    forall other | other in t.handlers && t.handlers[other].key == s.handlers[id].key
      ensures !InFlight(t.handlers[other].phase)
    {
      assert other != id ==> t.handlers[other] == s.handlers[other];
    }
  }

  /** The first entry of the window. */
  function WindowStart(log: seq<EventRecord>): nat {
    if |log| <= MAX_EVENT_HISTORY then 0 else |log| - MAX_EVENT_HISTORY
  }

  /** An open record that was made at or after the window started is far from every
      earlier record, unless that is still open itself. */
  lemma OpenIsFar(log: seq<EventRecord>, e: string, p: nat, from: nat, size: nat) returns (q: nat)
    requires SpacedApart(log) && HasOpen(log, e, from) && IsRecord(log, e, p) && !(log[p].status.Pending? && from <= p)
    requires p < size <= |log| && from == if size <= MAX_EVENT_HISTORY then 0 else size - MAX_EVENT_HISTORY
    ensures IsRecord(log, e, q) && q - p - 1 >= MAX_EVENT_HISTORY
  {
    q :| from <= q && IsRecord(log, e, q) && log[q].status.Pending?;
  }

  /** Every record of `e` among the first is far behind some later record of it. */
  ghost predicate FarApart(before: seq<EventRecord>, after: seq<EventRecord>, e: string) {
    forall p: nat :: IsRecord(before, e, p) ==> HasRecordFrom(after, e, p + 1 + MAX_EVENT_HISTORY)
  }

  ghost predicate HasRecordFrom(log: seq<EventRecord>, e: string, from: nat) {
    exists q: nat :: from <= q && IsRecord(log, e, q)
  }

  lemma NextIsFar(s: State, id: nat, now: string, actions: seq<Action>, again: nat, p: nat) returns (q: nat)
    requires Inv(s) && Enabled(s, Complete(id, now, true)) && s.handlers[id].phase.outcome.Success?
    requires HasTrimmedIds(s.handlers[id]) && Possible(Step(s, Complete(id, now, true)), actions)
    requires var t := Exec(Step(s, Complete(id, now, true)), actions);
             && InPhase(t, again, (f: Phase) => f.Authorized?)
             && t.handlers[again].key == s.handlers[id].key
             && Trim(t.handlers[again].delivery.eventId) == s.handlers[id].delivery.eventId
    requires IsRecord(Journal(s.ops, s.handlers[id].key), s.handlers[id].delivery.eventId, p)
    ensures var k, e := s.handlers[id].key, s.handlers[id].delivery.eventId;
            IsRecord(Journal(Exec(Step(s, Complete(id, now, true)), actions).ops, k), e, q)
            && q - p - 1 >= MAX_EVENT_HISTORY
  {
    var k, e, after := s.handlers[id].key, s.handlers[id].delivery.eventId, Step(s, Complete(id, now, true));
    var log, from, t := Journal(s.ops, k), WindowStart(Journal(s.ops, k)), Exec(after, actions);
    StepKeepsInv(s, Complete(id, now, true));
    StepAppends(s, Complete(id, now, true));
    OpsGrow(s.ops, after.ops, k);
    CompleteLeavesNone(s, id, now, true, from);
    ExecKeepsOpen(after, actions, k, from);
    ExecAppends(after, actions);
    OpsGrow(after.ops, t.ops, k);
    JournalIsSpaced(t.ops, k);
    if from <= p { ClosedRecordStays(s, id, now, actions, p); }
    q := OpenIsFar(Journal(t.ops, k), e, p, from, |log|);
  }

  lemma ClosedRecordStays(s: State, id: nat, now: string, actions: seq<Action>, p: nat)
    requires Inv(s) && Enabled(s, Complete(id, now, true)) && s.handlers[id].phase.outcome.Success?
    requires HasTrimmedIds(s.handlers[id]) && Possible(Step(s, Complete(id, now, true)), actions)
    requires var log := Journal(s.ops, s.handlers[id].key);
             IsRecord(log, s.handlers[id].delivery.eventId, p) && WindowStart(log) <= p
    ensures DoneAt(Exec(Step(s, Complete(id, now, true)), actions),
                   s.handlers[id].key, s.handlers[id].delivery.eventId, p)
  {
    var k, e := s.handlers[id].key, s.handlers[id].delivery.eventId;
    JournalIsSpaced(s.ops, k);
    OthersMatch(Journal(s.ops, k), p);
    CompleteMakesDone(s, id, now);
    StepKeepsInv(s, Complete(id, now, true));
    ExecKeepsDone(Step(s, Complete(id, now, true)), actions, k, e, p);
  }

  /** No double wake. Once a successful run of event `e` has its completion saved,
      under trimmed ids and whatever bindings share the stored session, a behaviour
      that starts the adapter for `e` again has appended `e` anew there, at least 500
      other records after each record of `e` that the completed run had left. */
  lemma NoDoubleWake(s: State, id: nat, now: string, actions: seq<Action>, again: nat, later: string, saved: bool)
    requires Reachable(s) && Enabled(s, Complete(id, now, true)) && s.handlers[id].phase.outcome.Success?
    requires HasTrimmedIds(s.handlers[id])
    requires Possible(Step(s, Complete(id, now, true)), actions)
    requires var t := Exec(Step(s, Complete(id, now, true)), actions);
             && Enabled(t, Start(again, later, saved))
             && t.handlers[again].key == s.handlers[id].key
             && Trim(t.handlers[again].delivery.eventId) == s.handlers[id].delivery.eventId
    ensures var k, e := s.handlers[id].key, s.handlers[id].delivery.eventId;
            var t := Exec(Step(s, Complete(id, now, true)), actions);
            && HasRecordFrom(Journal(s.ops, k), e, 0)
            && FarApart(Journal(s.ops, k), Journal(t.ops, k), e)
  {
    var k, e := s.handlers[id].key, s.handlers[id].delivery.eventId;
    ReachableInv(s);
    InFlightIsOpen(s, id);
    var log, t := Journal(s.ops, k), Exec(Step(s, Complete(id, now, true)), actions);
    forall p: nat | IsRecord(log, e, p) ensures HasRecordFrom(Journal(t.ops, k), e, p + 1 + MAX_EVENT_HISTORY) {
      var q := NextIsFar(s, id, now, actions, again, p);
    }
  }

  /** The exact rule for skipping a redelivery, in every reachable state and for
      any ids: it is answered as completed without a run exactly when the store
      can be saved, and holds a completed record of the event after which fewer
      than 500 others were appended. */
  lemma SkippedIffCompletedInWindow(s: State, id: nat, now: string, saved: bool)
    requires Reachable(s) && Enabled(s, Record(id, now, saved))
    ensures var h := s.handlers[id];
            Step(s, Record(id, now, saved)).handlers[id].phase == Leaving(true)
            <==> saved && exists i ::
                   CompletedInWindow(Journal(s.ops, TrimKey(h.key)), Trim(h.delivery.eventId), i)
  {
    ReachableInv(s);
    var h := s.handlers[id];
    var d := h.delivery;
    if RecordDelivery(s.store, h.key, d.eventId, d.deliveryId, d.payload, now).Ok? {
      DuplicateIffCompletedInWindow(s.ops, h.key, d.eventId, d.deliveryId, d.payload, now);
    } else {
      JournalKeeps(s.ops, TrimKey(h.key));
    }
  }
}
