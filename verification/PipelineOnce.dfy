/** One-time grants over the whole life of the system, restarts and outside edits of
    the permission file included. */
module PipelineOnce {
  import opened Common
  import opened Pipeline
  import opened PipelineConsent
  import Client
  import PermissionHistory
  import PermissionTheorems
  import Permissions

  /** This step authorizes a handler of the session by its one-time grant. */
  ghost predicate IssuesOnce(s: State, a: Action, key: Key) {
    && a.Authorize?
    && a.id in s.daemon.handlers
    && s.daemon.handlers[a.id].key == key
    && Granting(s, a.id, a.saved).Some?
    && var store := PermissionHistory.Replay(s.hash, s.grants);
    && Permissions.Answer(store, s.hash, key.provider, key.session).value.scope.Once?
  }

  /** The handlers of the session with an unused one-time authorization, after a step. */
  ghost function Waiting(s: State, a: Action, key: Key, waiting: set<nat>): set<nat> {
    if IssuesOnce(s, a, key) then waiting + {a.id}
    else if a.Authorize? then waiting - {a.id}
    else if Starts(a) then waiting - {a.action.id}
    else if a.Restart? then {}
    else waiting
  }

  /** Those of them that have started the adapter, after a step. */
  function Working(a: Action, waiting: set<nat>, working: set<nat>): set<nat> {
    if Starts(a) && a.action.id in waiting then working + {a.action.id}
    else if a.DaemonStep? && a.action.Return? then working - {a.action.id}
    else if a.Restart? then {}
    else working
  }

  predicate StartsOnce(a: Action, waiting: set<nat>) {
    Starts(a) && a.action.id in waiting
  }

  predicate ReturnsOnce(a: Action, working: set<nat>) {
    a.DaemonStep? && a.action.Return? && a.action.id in working
  }

  /** Starts of the adapter for the session that scope once authorized. */
  ghost function OnceStarts(s: State, actions: seq<Action>, key: Key, waiting: set<nat>): nat
    requires Possible(s, actions)
    decreases |actions|
  {
    if actions == [] then 0
    else
      (if StartsOnce(actions[0], waiting) then 1 else 0)
      + OnceStarts(Step(s, actions[0]), actions[1..], key, Waiting(s, actions[0], key, waiting))
  }

  /** Those of them that returned. */
  ghost function OnceRuns(s: State, actions: seq<Action>, key: Key, waiting: set<nat>, working: set<nat>): nat
    requires Possible(s, actions)
    decreases |actions|
  {
    if actions == [] then 0
    else
      (if ReturnsOnce(actions[0], working) then 1 else 0)
      + OnceRuns(Step(s, actions[0]), actions[1..], key, Waiting(s, actions[0], key, waiting),
                 Working(actions[0], waiting, working))
  }

  ghost function TimesIssuedOnce(s: State, actions: seq<Action>, key: Key): nat
    requires Possible(s, actions)
    decreases |actions|
  {
    if actions == [] then 0
    else (if IssuesOnce(s, actions[0], key) then 1 else 0) + TimesIssuedOnce(Step(s, actions[0]), actions[1..], key)
  }

  lemma WaitingPays(s: State, a: Action, key: Key, waiting: set<nat>)
    ensures (if StartsOnce(a, waiting) then 1 else 0) + |Waiting(s, a, key, waiting)|
            <= |waiting| + if IssuesOnce(s, a, key) then 1 else 0
  {
    if a.Authorize? && !IssuesOnce(s, a, key) { Subset(waiting - {a.id}, waiting); }
    if Starts(a) { Subset(waiting - {a.action.id}, waiting); }
  }

  lemma WorkingPays(a: Action, waiting: set<nat>, working: set<nat>)
    ensures (if ReturnsOnce(a, working) then 1 else 0) + |Working(a, waiting, working)|
            <= |working| + if StartsOnce(a, waiting) then 1 else 0
  {
    if a.DaemonStep? && a.action.Return? { Subset(working - {a.action.id}, working); }
  }

  lemma {:induction false} OnceStartsArePaid(s: State, actions: seq<Action>, key: Key, waiting: set<nat>)
    requires Possible(s, actions)
    ensures OnceStarts(s, actions, key, waiting) <= |waiting| + TimesIssuedOnce(s, actions, key)
    decreases |actions|
  {
    if actions != [] {
      WaitingPays(s, actions[0], key, waiting);
      OnceStartsArePaid(Step(s, actions[0]), actions[1..], key, Waiting(s, actions[0], key, waiting));
    }
  }

  lemma {:induction false} OnceRunsWereStarted(
      s: State, actions: seq<Action>, key: Key, waiting: set<nat>, working: set<nat>)
    requires Possible(s, actions)
    ensures OnceRuns(s, actions, key, waiting, working) <= |working| + OnceStarts(s, actions, key, waiting)
    decreases |actions|
  {
    if actions != [] {
      WorkingPays(actions[0], waiting, working);
      OnceRunsWereStarted(Step(s, actions[0]), actions[1..], key, Waiting(s, actions[0], key, waiting),
                          Working(actions[0], waiting, working));
    }
  }

  // --------------------------------------------- grants in memory and in the file

  function OnceKey(key: Key): Permissions.GrantKey {
    Permissions.GrantKey(key.provider, key.session, Permissions.Once)
  }

  function HeldIn(hash: Permissions.Hash, ops: seq<PermissionHistory.Op>, key: Key): nat {
    PermissionTheorems.Held(PermissionHistory.Replay(hash, ops).grants, OnceKey(key))
  }

  /** The one-time grants still to be used: the daemon's, or else the file's. */
  function Unused(s: State, key: Key): nat {
    if HeldIn(s.hash, s.grants, key) >= HeldIn(s.hash, s.saved, key) then HeldIn(s.hash, s.grants, key)
    else HeldIn(s.hash, s.saved, key)
  }

  /** Another process makes a one-time grant for the session, or puts a file in place
      that holds one. */
  predicate MakesOnce(s: State, a: Action, key: Key) {
    || (a.PermissionsEdited?
        && PermissionTheorems.MakesOnce(s.hash, s.saved, a.edit, key.provider, key.session))
    || (a.PermissionsReplaced? && HeldIn(s.hash, a.history, key) > 0)
  }

  ghost function TimesMadeOnce(s: State, actions: seq<Action>, key: Key): nat
    requires Possible(s, actions)
    decreases |actions|
  {
    if actions == [] then 0
    else (if MakesOnce(s, actions[0], key) then 1 else 0) + TimesMadeOnce(Step(s, actions[0]), actions[1..], key)
  }

  lemma HeldAfter(hash: Permissions.Hash, ops: seq<PermissionHistory.Op>, op: PermissionHistory.Op, key: Key)
    ensures HeldIn(hash, ops + [op], key) + (if PermissionHistory.Consumes(hash, ops, op, OnceKey(key)) then 1 else 0)
            <= HeldIn(hash, ops, key) + if PermissionHistory.MakesUnder(hash, ops, op, OnceKey(key)) then 1 else 0
  {
    PermissionTheorems.StepHolds(hash, ops, op, OnceKey(key));
    PermissionHistory.ReplaySnoc(hash, ops, op);
  }

  /** A one-time authorization that counts uses the grant up in memory and in the file. */
  lemma AuthorizeUses(s: State, a: Action, key: Key)
    requires Enabled(s, a) && a.Authorize?
    ensures (if IssuesOnce(s, a, key) then 1 else 0) + Unused(Step(s, a), key) <= Unused(s, key)
  {
    var h := s.daemon.handlers[a.id].key;
    var op := PermissionHistory.Use(h.provider, h.session, true, a.now);
    HeldAfter(s.hash, s.grants, op, key);
    if IssuesOnce(s, a, key) { assert PermissionHistory.Consumes(s.hash, s.grants, op, OnceKey(key)); }
  }

  lemma StepUses(s: State, a: Action, key: Key)
    requires Enabled(s, a)
    ensures (if IssuesOnce(s, a, key) then 1 else 0) + Unused(Step(s, a), key)
            <= Unused(s, key) + if MakesOnce(s, a, key) then 1 else 0
  {
    match a
    case Authorize(_, _, _) => AuthorizeUses(s, a, key);
    case PermissionAsked(request, now, _) => HeldAfter(s.hash, s.grants, PermissionHistory.Ask(request, now), key);
    case PermissionsEdited(op) =>
      HeldAfter(s.hash, s.saved, op, key);
      PermissionTheorems.MakesOnceIff(s.hash, s.saved, op, key.provider, key.session);
    case _ =>
  }

  lemma {:induction false} IssuesAreMade(s: State, actions: seq<Action>, key: Key)
    requires Possible(s, actions)
    ensures TimesIssuedOnce(s, actions, key) <= Unused(s, key) + TimesMadeOnce(s, actions, key)
    decreases |actions|
  {
    if actions != [] {
      StepUses(s, actions[0], key);
      IssuesAreMade(Step(s, actions[0]), actions[1..], key);
    }
  }

  /** One-time grants, end to end and over every restart. The finished runs of a
      session under scope once do not outnumber the starts of the adapter under it,
      and those do not outnumber the once grants: the ones of the first history that
      were not used yet, and the ones that other processes made or put in place since. */
  lemma OnceRunsNeverExceedOnceGrants(name: string, options: Client.Options, hash: Permissions.Hash, bound: set<Key>,
                                      grants: seq<PermissionHistory.Op>, actions: seq<Action>, key: Key)
    requires Possible(Init(name, options, hash, bound, grants), actions)
    ensures var s0 := Init(name, options, hash, bound, grants);
            && OnceRuns(s0, actions, key, {}, {}) <= OnceStarts(s0, actions, key, {})
            && OnceStarts(s0, actions, key, {}) + PermissionTheorems.OnceUses(hash, grants, key.provider, key.session)
               <= PermissionTheorems.OnceGrants(hash, grants, key.provider, key.session)
                  + TimesMadeOnce(s0, actions, key)
  {
    var s0 := Init(name, options, hash, bound, grants);
    OnceStartsArePaid(s0, actions, key, {});
    OnceRunsWereStarted(s0, actions, key, {}, {});
    IssuesAreMade(s0, actions, key);
    PermissionTheorems.OnceGrantsAreUsedOnce(hash, grants, key.provider, key.session);
  }
}
