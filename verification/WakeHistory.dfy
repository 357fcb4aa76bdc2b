/** What the event store keeps over whole histories of operations. */
module WakeHistory {
  import opened Common
  import opened Wake

  datatype Op =
    | Deliver(key: Key, eventId: string, deliveryId: string, payload: string, now: string)
    | Finish(key: Key, eventId: string, status: EventStatus, now: string)
    | DoPause(key: Key, reason: string, now: string)
    | DoCrash(key: Key, reason: string, now: string)
    | DoResume(key: Key, now: string)
    | DoGrant(key: Key, permissions: seq<string>, now: string)

  /** One store operation; one that fails changes nothing. */
  function Apply(store: Store, op: Op): Store {
    match op
    case Deliver(k, e, d, p, now) =>
      (match RecordDelivery(store, k, e, d, p, now) case Ok((after, _, _)) => after case Err(_) => store)
    case Finish(k, e, status, now) =>
      (match CompleteEvent(store, k, e, status, now) case Ok((after, _)) => after case Err(_) => store)
    case DoPause(k, reason, now) => Pause(store, k, reason, now)
    case DoCrash(k, reason, now) => MarkCrashed(store, k, reason, now)
    case DoResume(k, now) => (match Resume(store, k, now) case Ok((after, _)) => after case Err(_) => store)
    case DoGrant(k, permissions, now) => SetPermissions(store, k, permissions, now)
  }

  /** The store that a history of operations builds from the empty one. */
  function Replay(ops: seq<Op>): Store {
    if ops == [] then [] else Apply(Replay(ops[..|ops| - 1]), ops[|ops| - 1])
  }

  /** The session an operation is about. Only RecordDelivery trims its ids. */
  function Target(op: Op): Key {
    if op.Deliver? then TrimKey(op.key) else op.key
  }

  // ------------------------------------------------------- session isolation

  /** What an operation makes of the one session it is about. */
  function Effect(s: Option<Session>, op: Op): Option<Session> {
    var one := if s.Some? then [s.value] else [];
    Lookup(Apply(one, op), Target(op))
  }

  ghost predicate Holds(s: Option<Session>, k: Key) {
    s.Some? ==> s.value.key == k
  }

  lemma ApplyIsLocal(store: Store, op: Op, k: Key)
    ensures Lookup(Apply(store, op), k) == if k == Target(op) then Effect(Lookup(store, k), op) else Lookup(store, k)
  {
    var t := Target(op);
    var here := Lookup(store, t);
    var one := if here.Some? then [here.value] else [];
    assert Lookup(one, t) == here;
    var r := Written(here, op);
    ApplyIsPut(store, op);
    ApplyIsPut(one, op);
    if r.Some? {
      LookupPut(store, r.value, k);
      LookupPut(one, r.value, t);
    }
  }

  /** The session an operation writes back, if it writes at all. */
  function Written(here: Option<Session>, op: Op): (r: Option<Session>)
    requires Holds(here, Target(op))
    ensures Holds(r, Target(op))
  {
    var ensured := if here.Some? then here.value else NewSession(Target(op), op.now);
    match op
    case Deliver(_, e, d, p, now) =>
      if Target(op).provider == "" || Target(op).session == "" || Trim(e) == "" then None
      else Some(Recorded(ensured, Trim(e), d, p, now))
    case Finish(_, e, status, now) =>
      if status.Pending? || here.None? || IndexOf(here.value.events, e) == |here.value.events| then None
      else Some(Closed(here.value, e, status, now))
    case DoPause(_, reason, now) => Some(ensured.(lifecycle := Lifecycle(Paused, now, Trim(reason))))
    case DoCrash(_, reason, now) => Some(ensured.(lifecycle := Lifecycle(Crashed, now, Trim(reason))))
    case DoResume(_, now) => if here.None? then None else Some(here.value.(lifecycle := Lifecycle(Idle, now, "")))
    case DoGrant(_, permissions, _) => Some(ensured.(permissions := permissions))
  }

  lemma ApplyIsPut(store: Store, op: Op)
    ensures Holds(Lookup(store, Target(op)), Target(op))
    ensures var r := Written(Lookup(store, Target(op)), op);
            Apply(store, op) == if r.Some? then Put(store, r.value) else store
  {
  }

  /** The operations of a history that are about session `k`. */
  function Restrict(ops: seq<Op>, k: Key): seq<Op> {
    if ops == [] then []
    else
      var last := ops[|ops| - 1];
      Restrict(ops[..|ops| - 1], k) + if Target(last) == k then [last] else []
  }

  /** Session isolation: whatever other sessions do, and in whatever order the
      steps interleave, session `k` is what its own steps alone build. */
  lemma {:induction false} SessionIsolation(ops: seq<Op>, k: Key)
    ensures Lookup(Replay(ops), k) == Lookup(Replay(Restrict(ops, k)), k)
  {
    if ops != [] {
      var before, last := ops[..|ops| - 1], ops[|ops| - 1];
      SessionIsolation(before, k);
      ApplyIsLocal(Replay(before), last, k);
      if Target(last) == k {
        var own := Restrict(before, k);
        assert (own + [last])[..|own|] == own;
        ApplyIsLocal(Replay(own), last, k);
      } else {
        assert Restrict(ops, k) == Restrict(before, k);
      }
    }
  }
}
