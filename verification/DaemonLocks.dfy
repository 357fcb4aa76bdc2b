/** Who holds the session locks, and that each of them can be released. */
module DaemonLocks {
  import opened Common
  import opened Wake
  import opened WakeHistory
  import opened Daemon
  import opened DaemonInvariants
  import opened DaemonGate

  ghost predicate OwnedAt(s: State, k: Key) {
    k in s.locks ==>
      && s.locks[k] in s.handlers
      && s.handlers[s.locks[k]].key == k && HoldsLock(s.handlers[s.locks[k]].phase)
  }

  /** Every lock that is taken is held by a handler that will release it. */
  ghost predicate Owned(s: State) {
    forall k :: k in s.locks ==> OwnedAt(s, k)
  }

  lemma OwnerMoves(s: State, a: Action, id: nat)
    requires Enabled(s, a) && Acts(a, id) && id in s.handlers && HoldsLock(s.handlers[id].phase)
    ensures !a.Unlock? ==>
              && id in Step(s, a).handlers && HoldsLock(Step(s, a).handlers[id].phase)
              && Step(s, a).handlers[id].key == s.handlers[id].key
    ensures a.Unlock? ==> Step(s, a).locks == s.locks - {s.handlers[id].key}
  {
    if OfHandler(a) { var p := Moved(s, a); }
  }

  lemma OthersRemain(s: State, a: Action, id: nat)
    requires Enabled(s, a) && !Acts(a, id) && id in s.handlers && !a.CrashDaemon?
    ensures id in Step(s, a).handlers && Step(s, a).handlers[id] == s.handlers[id]
  {
    if OfHandler(a) { var p := Moved(s, a); }
  }

  lemma LocksAfter(s: State, a: Action, k: Key)
    requires Enabled(s, a) && k in Step(s, a).locks
    ensures !a.CrashDaemon?
    ensures || (k in s.locks && Step(s, a).locks[k] == s.locks[k])
            || (a.Lock? && k == s.handlers[a.id].key && Step(s, a).locks[k] == a.id)
  {
  }

  lemma StepKeepsOwned(s: State, a: Action)
    requires Enabled(s, a) && Owned(s)
    ensures Owned(Step(s, a))
  {
    forall k | k in Step(s, a).locks ensures OwnedAt(Step(s, a), k) {
      LocksAfter(s, a, k);
      if k in s.locks && Step(s, a).locks[k] == s.locks[k] {
        assert OwnedAt(s, k);
        if Acts(a, s.locks[k]) { OwnerMoves(s, a, s.locks[k]); } else { OthersRemain(s, a, s.locks[k]); }
      }
    }
  }

  lemma {:induction false} ExecKeepsOwned(s: State, actions: seq<Action>)
    requires Possible(s, actions) && Owned(s)
    ensures Owned(Exec(s, actions))
    decreases |actions|
  {
    if actions != [] {
      StepKeepsOwned(s, actions[0]);
      ExecKeepsOwned(Step(s, actions[0]), actions[1..]);
    }
  }

  lemma ReachableOwned(s: State)
    requires Reachable(s)
    ensures Owned(s)
  {
    var actions :| Possible(Init(s.bound), actions) && Exec(Init(s.bound), actions) == s;
    ExecKeepsOwned(Init(s.bound), actions);
  }

  /** How far at most a lock holder is from releasing its lock. */
  function Distance(p: Phase): nat {
    match p
    case Authorized(_) => 4
    case OnFile => 3
    case Executing(_) => 3
    case Locked => 4
    case Denied => 2
    case Ran(_) => 2
    case Leaving(_) => 1
    case _ => 0
  }

  /** The next step of a lock holder, with nothing saved. */
  function Onward(id: nat, p: Phase): Action
    requires HoldsLock(p)
  {
    match p
    case Locked => Record(id, "", false)
    case OnFile => Authorize(id, None)
    case Denied => Deny(id, "", false)
    case Authorized(_) => Start(id, "", false)
    case Executing(_) => Return(id, Failure)
    case Ran(_) => Complete(id, "", false)
    case Leaving(_) => Unlock(id)
  }

  /** The store, and every handler of another binding, are as they were. */
  ghost predicate Undisturbed(s: State, t: State, k: Key) {
    && t.store == s.store && t.ops == s.ops && t.bound == s.bound
    && forall id :: id in s.handlers && s.handlers[id].key != k ==>
         id in t.handlers && t.handlers[id] == s.handlers[id]
  }

  lemma OnwardIsEnabled(s: State, id: nat)
    requires id in s.handlers && HoldsLock(s.handlers[id].phase)
    ensures var a := Onward(id, s.handlers[id].phase); Enabled(s, a) && OfHandler(a) && a.id == id
  {
  }

  lemma OnwardIsNearer(id: nat, before: Phase, after: Phase)
    requires HoldsLock(before) && Follows(Onward(id, before), before, after)
    ensures Onward(id, before).Unlock? || (HoldsLock(after) && Distance(after) < Distance(before))
  {
  }

  lemma OnwardMoves(s: State, id: nat)
    requires id in s.handlers && HoldsLock(s.handlers[id].phase)
    ensures var a := Onward(id, s.handlers[id].phase);
            && Enabled(s, a) && Undisturbed(s, Step(s, a), s.handlers[id].key)
            && var t := Step(s, a);
            && t.locks == (if a.Unlock? then s.locks - {s.handlers[id].key} else s.locks)
            && (!a.Unlock? ==> id in t.handlers && t.handlers[id].key == s.handlers[id].key
                               && HoldsLock(t.handlers[id].phase)
                               && Distance(t.handlers[id].phase) < Distance(s.handlers[id].phase))
  {
    OnwardIsEnabled(s, id);
    var p := Moved(s, Onward(id, s.handlers[id].phase));
    OnwardIsNearer(id, s.handlers[id].phase, p);
    OnwardSavesNothing(s, id);
  }

  lemma OnwardSavesNothing(s: State, id: nat)
    requires id in s.handlers && HoldsLock(s.handlers[id].phase)
    ensures var a, t := Onward(id, s.handlers[id].phase), Step(s, Onward(id, s.handlers[id].phase));
            && t.store == s.store && t.ops == s.ops && t.bound == s.bound
            && t.locks == if a.Unlock? then s.locks - {s.handlers[id].key} else s.locks
  {
  }

  /** Whoever holds the lock of a binding can go on and release it, with the store
      and the handlers of the other bindings left as they are. */
  lemma {:induction false} Frees(s: State, k: Key) returns (actions: seq<Action>)
    requires OwnedAt(s, k)
    ensures Possible(s, actions) && NoneResumes(actions)
    ensures k !in Exec(s, actions).locks && Undisturbed(s, Exec(s, actions), k)
    decreases if k in s.locks then Distance(s.handlers[s.locks[k]].phase) else 0
  {
    if k !in s.locks {
      actions := [];
    } else {
      var id := s.locks[k];
      var a := Onward(id, s.handlers[id].phase);
      OnwardMoves(s, id);
      var rest := Frees(Step(s, a), k);
      Prepend(s, a, rest);
      actions := [a] + rest;
    }
  }

  lemma UnusedId(handlers: map<nat, Handler>) returns (id: nat)
    ensures id !in handlers
  {
    id := Above(handlers.Keys);
  }

  lemma Above(ids: set<nat>) returns (bound: nat)
    ensures forall id :: id in ids ==> id < bound
    decreases |ids|
  {
    if ids == {} {
      bound := 0;
    } else {
      var id :| id in ids;
      var rest := Above(ids - {id});
      bound := if id < rest then rest else id + 1;
      assert forall other :: other in ids ==> other == id || other in ids - {id};
    }
  }
}
