/** The daemon's delivery handlers as a transition system. Every step is one
    atomic piece of internal/cli/daemon.go: a lock operation, one access to the
    event store under `eventLock`, or the start or end of an adapter run. Any
    number of handlers interleave, `pause` and `resume` come from outside at any
    time, and the process may crash between any two steps. */
module Daemon {
  import opened Common
  import opened Protocol
  import opened Wake
  import opened WakeHistory

  datatype Outcome = Success | Failure | Unusable(reason: string)

  datatype Phase =
    | Waiting                              // spawned, session lock not yet held
    | Locked                               // lock held, delivery not yet recorded
    | OnFile                               // recorded as pending, gate open
    | Denied                               // authorization failed
    | Authorized(permissions: seq<string>)
    | Executing(permissions: seq<string>)  // adapter started
    | Ran(outcome: Outcome)                // adapter returned, nothing saved yet
    | Leaving(ok: bool)                    // about to release the session lock
    | Answered(ok: bool)                   // lock released, ack not yet written

  datatype Handler = Handler(key: Key, delivery: Delivery, phase: Phase)

  /** One finished adapter run. */
  datatype Run = Run(key: Key, eventId: string, permissions: seq<string>, outcome: Outcome)

  /** `bound` is fixed at start-up; `ops` and `runs` are history variables: every
      saved store operation, and every adapter run, since the empty store. */
  datatype State = State(
    bound: set<Key>,
    store: Store,
    ops: seq<Op>,
    handlers: map<nat, Handler>,
    locks: map<Key, nat>,
    runs: seq<Run>)

  datatype Action =
    | Receive(id: nat, key: Key, delivery: Delivery)
    | Lock(id: nat)
    | Record(id: nat, now: string, saved: bool)
    | Authorize(id: nat, granted: Option<seq<string>>)
    | Deny(id: nat, now: string, saved: bool)
    | Start(id: nat, now: string, saved: bool)
    | Return(id: nat, outcome: Outcome)
    | Complete(id: nat, now: string, saved: bool)
    | Unlock(id: nat)
    | Acknowledge(id: nat)
    | PauseSession(key: Key, reason: string, now: string)
    | ResumeSession(key: Key, now: string)
    | CrashDaemon

  function Init(bound: set<Key>): State {
    State(bound, [], [], map[], map[], [])
  }

  predicate InPhase(s: State, id: nat, test: Phase -> bool) {
    id in s.handlers && test(s.handlers[id].phase)
  }

  predicate Enabled(s: State, a: Action) {
    match a
    case Receive(id, key, delivery) => id !in s.handlers && key in s.bound && delivery.sessionId == key.session
    case Lock(id) => InPhase(s, id, (p: Phase) => p.Waiting?) && s.handlers[id].key !in s.locks
    case Record(id, _, _) => InPhase(s, id, (p: Phase) => p.Locked?)
    case Authorize(id, _) => InPhase(s, id, (p: Phase) => p.OnFile?)
    case Deny(id, _, _) => InPhase(s, id, (p: Phase) => p.Denied?)
    case Start(id, _, _) => InPhase(s, id, (p: Phase) => p.Authorized?)
    case Return(id, _) => InPhase(s, id, (p: Phase) => p.Executing?)
    case Complete(id, _, _) => InPhase(s, id, (p: Phase) => p.Ran?)
    case Unlock(id) => InPhase(s, id, (p: Phase) => p.Leaving?)
    case Acknowledge(id) => InPhase(s, id, (p: Phase) => p.Answered?)
    case _ => true
  }

  function MoveTo(s: State, id: nat, phase: Phase): State
    requires id in s.handlers
  {
    s.(handlers := s.handlers[id := s.handlers[id].(phase := phase)])
  }

  /** One load, mutate and save of the event store; a failed save leaves the file. */
  function Mutate(s: State, op: Op, saved: bool): State {
    if saved then s.(store := Apply(s.store, op), ops := s.ops + [op]) else s
  }

  function FinishOp(h: Handler, status: EventStatus, now: string): Op {
    Finish(h.key, h.delivery.eventId, status, now)
  }

  /** recordOrGate and the three ways out of it that follow. */
  function RecordOrGate(s: State, id: nat, now: string, saved: bool): State
    requires id in s.handlers
  {
    var h := s.handlers[id];
    var d := h.delivery;
    match RecordDelivery(s.store, h.key, d.eventId, d.deliveryId, d.payload, now)
    case Err(_) => MoveTo(s, id, Leaving(false))
    case Ok((_, session, duplicate)) =>
      if !saved then MoveTo(s, id, Leaving(false))
      else
        MoveTo(Mutate(s, Deliver(h.key, d.eventId, d.deliveryId, d.payload, now), true), id,
               if duplicate then Leaving(true) else if Gated(session) then Leaving(false) else OnFile)
  }

  /** The final mutation of a handler whose adapter returned `outcome`. */
  function CompleteRun(s: State, h: Handler, outcome: Outcome, now: string, saved: bool): State {
    var closed := Mutate(s, FinishOp(h, if outcome.Success? then Completed else Failed, now), saved);
    if outcome.Unusable? then Mutate(closed, DoCrash(h.key, outcome.reason, now), saved) else closed
  }

  function Step(s: State, a: Action): State
    requires Enabled(s, a)
  {
    match a
    case Receive(id, key, delivery) => s.(handlers := s.handlers[id := Handler(key, delivery, Waiting)])
    case Lock(id) => MoveTo(s, id, Locked).(locks := s.locks[s.handlers[id].key := id])
    case Record(id, now, saved) => RecordOrGate(s, id, now, saved)
    case Authorize(id, granted) => MoveTo(s, id, if granted.Some? then Authorized(granted.value) else Denied)
    case Deny(id, now, saved) =>
      MoveTo(Mutate(s, FinishOp(s.handlers[id], Failed, now), saved), id, Leaving(false))
    case Start(id, now, saved) =>
      var h := s.handlers[id];
      MoveTo(Mutate(s, DoGrant(h.key, h.phase.permissions, now), saved), id, Executing(h.phase.permissions))
    case Return(id, outcome) =>
      var h := s.handlers[id];
      MoveTo(s, id, Ran(outcome)).(runs := s.runs + [Run(h.key, h.delivery.eventId, h.phase.permissions, outcome)])
    case Complete(id, now, saved) =>
      var h := s.handlers[id];
      MoveTo(CompleteRun(s, h, h.phase.outcome, now, saved), id, Leaving(h.phase.outcome.Success?))
    case Unlock(id) => MoveTo(s, id, Answered(s.handlers[id].phase.ok)).(locks := s.locks - {s.handlers[id].key})
    case Acknowledge(id) => s.(handlers := s.handlers - {id})
    case PauseSession(key, reason, now) => Mutate(s, DoPause(key, reason, now), true)
    case ResumeSession(key, now) => Mutate(s, DoResume(key, now), true)
    case CrashDaemon => s.(handlers := map[], locks := map[])
  }

  /** A step of a handler that exists and goes on. */
  predicate OfHandler(a: Action) {
    !a.Receive? && !a.Acknowledge? && !a.PauseSession? && !a.ResumeSession? && !a.CrashDaemon?
  }

  /** The phases a handler can go to with this step. */
  predicate Follows(a: Action, before: Phase, after: Phase) {
    match a
    case Lock(_) => before.Waiting? && after.Locked?
    case Record(_, _, _) => before.Locked? && (after.OnFile? || after.Leaving?)
    case Authorize(_, granted) =>
      before.OnFile? && after == if granted.Some? then Authorized(granted.value) else Denied
    case Deny(_, _, _) => before.Denied? && after == Leaving(false)
    case Start(_, _, _) => before.Authorized? && after == Executing(before.permissions)
    case Return(_, outcome) => before.Executing? && after == Ran(outcome)
    case Complete(_, _, _) => before.Ran? && after == Leaving(before.outcome.Success?)
    case Unlock(_) => before.Leaving? && after == Answered(before.ok)
    case _ => false
  }

  /** A handler's step changes its own phase, and no other handler. */
  lemma Moved(s: State, a: Action) returns (p: Phase)
    requires Enabled(s, a) && OfHandler(a)
    ensures a.id in s.handlers && Follows(a, s.handlers[a.id].phase, p)
    ensures Step(s, a).handlers == s.handlers[a.id := s.handlers[a.id].(phase := p)]
  {
    p := Step(s, a).handlers[a.id].phase;
  }

  // --------------------------------------------------------------- behaviours

  /** Every action of the sequence is enabled when its turn comes. */
  predicate Possible(s: State, actions: seq<Action>)
    decreases |actions|
  {
    actions == [] || (Enabled(s, actions[0]) && Possible(Step(s, actions[0]), actions[1..]))
  }

  function Exec(s: State, actions: seq<Action>): State
    requires Possible(s, actions)
    decreases |actions|
  {
    if actions == [] then s else Exec(Step(s, actions[0]), actions[1..])
  }

  lemma {:induction false} Extend(s: State, actions: seq<Action>, a: Action)
    requires Possible(s, actions) && Enabled(Exec(s, actions), a)
    ensures Possible(s, actions + [a]) && Exec(s, actions + [a]) == Step(Exec(s, actions), a)
    decreases |actions|
  {
    var all := actions + [a];
    if actions == [] {
      assert all[1..] == [];
    } else {
      assert all[1..] == actions[1..] + [a];
      Extend(Step(s, actions[0]), actions[1..], a);
    }
  }

  lemma Prepend(s: State, a: Action, rest: seq<Action>)
    requires Enabled(s, a) && Possible(Step(s, a), rest)
    ensures Possible(s, [a] + rest) && Exec(s, [a] + rest) == Exec(Step(s, a), rest)
  {
    assert ([a] + rest)[1..] == rest;
  }

  lemma InThree(s: State, a: Action, b: Action, c: Action)
    requires Enabled(s, a) && Enabled(Step(s, a), b) && Enabled(Step(Step(s, a), b), c)
    ensures var all := [a] + ([b] + ([c] + []));
            Possible(s, all) && Exec(s, all) == Step(Step(Step(s, a), b), c)
  {
    Prepend(Step(Step(s, a), b), c, []);
    Prepend(Step(s, a), b, [c] + []);
    Prepend(s, a, [b] + ([c] + []));
  }

  lemma {:induction false} Concatenate(s: State, first: seq<Action>, rest: seq<Action>)
    requires Possible(s, first) && Possible(Exec(s, first), rest)
    ensures Possible(s, first + rest) && Exec(s, first + rest) == Exec(Exec(s, first), rest)
    decreases |first|
  {
    if first == [] {
      assert first + rest == rest;
    } else {
      Concatenate(Step(s, first[0]), first[1..], rest);
      Prepend(s, first[0], first[1..] + rest);
      assert [first[0]] + (first[1..] + rest) == first + rest;
    }
  }

  /** A state the daemon can be in, for some bindings and some run. */
  ghost predicate Reachable(s: State) {
    exists actions :: Possible(Init(s.bound), actions) && Exec(Init(s.bound), actions) == s
  }

  /** No other binding stands for the same stored session. The store trims the
      ids of a delivery, so bindings that differ in outer white space share one. */
  ghost predicate Alone(bound: set<Key>, k: Key) {
    forall j :: j in bound && TrimKey(j) == TrimKey(k) ==> j == k
  }

  lemma BoundStays(s: State, a: Action)
    requires Enabled(s, a)
    ensures Step(s, a).bound == s.bound
  {
  }

  lemma {:induction false} ExecKeepsBound(s: State, actions: seq<Action>)
    requires Possible(s, actions)
    ensures Exec(s, actions).bound == s.bound
    decreases |actions|
  {
    if actions != [] {
      BoundStays(s, actions[0]);
      ExecKeepsBound(Step(s, actions[0]), actions[1..]);
    }
  }
}
