/** Authorization against the whole history of requests, grants, uses and
    revocations that led to the store. */
module PermissionHistory {
  import opened Common
  import opened Permissions

  datatype Op =
    | Ask(request: Request, now: string)
    | Allow(provider: string, session: string, scope: string, ids: seq<string>, now: string)
    | Use(provider: string, session: string, consume: bool, now: string)
    | Withdraw(provider: string, session: string, scope: string, ids: seq<string>, now: string)

  function Apply(store: Store, hash: Hash, op: Op): Store {
    match op
    case Ask(request, now) =>
      (match RecordRequest(store, request, now) case Ok((after, _)) => after case Err(_) => store)
    case Allow(p, s, scope, ids, now) =>
      (match GrantPermissions(store, hash, p, s, scope, ids, now) case Ok((after, _)) => after case Err(_) => store)
    case Use(p, s, consume, now) => Authorize(store, hash, p, s, consume, now).0
    case Withdraw(p, s, scope, ids, now) => Revoke(store, p, s, scope, ids, now).0
  }

  function Replay(hash: Hash, ops: seq<Op>): Store {
    if ops == [] then NewStore() else Apply(Replay(hash, ops[..|ops| - 1]), hash, ops[|ops| - 1])
  }

  lemma ReplaySnoc(hash: Hash, ops: seq<Op>, op: Op)
    ensures Replay(hash, ops + [op]) == Apply(Replay(hash, ops), hash, op)
  {
    assert (ops + [op])[..|ops|] == ops;
  }

  // ----------------------------------------------------- what the store keeps

  ghost predicate UniqueRequests(requests: seq<Request>) {
    forall i, j :: 0 <= i < j < |requests| ==>
      !(requests[i].provider == requests[j].provider && requests[i].session == requests[j].session)
  }

  ghost predicate UniqueGrants(grants: seq<Grant>) {
    forall i, j :: 0 <= i < j < |grants| ==> KeyOf(grants[i]) != KeyOf(grants[j])
  }

  ghost predicate WellMade(g: Grant) {
    && (g.scope == Provider ==> g.session == "")
    && g.permissions != []
    && Ascending(g.permissions)
    && (forall i :: 0 <= i < |g.permissions| ==> Trim(g.permissions[i]) == g.permissions[i] != "")
    && g.hashes.Keys == set id | id in g.permissions
  }

  ghost predicate Orderly(store: Store) {
    && RequestsOrderly(store.requests)
    && UniqueGrants(store.grants)
    && forall i :: 0 <= i < |store.grants| ==> WellMade(store.grants[i])
  }

  ghost predicate TrimmedTools(permissions: seq<Permission>) {
    forall i, tool :: 0 <= i < |permissions| && tool in permissions[i].tools ==> Trim(tool) == tool != ""
  }

  lemma {:induction false} CheckedIsTrimmed(permissions: seq<Permission>, seen: set<string>)
    requires Checked(permissions, seen).Ok?
    ensures TrimmedTools(Checked(permissions, seen).value)
  {
    if permissions != [] {
      var p := Normalized(permissions[0]);
      CheckedIsTrimmed(permissions[1..], seen + {p.id});
      NormalizedIsTrimmed(permissions[0]);
      TrimmedToolsCons(p, Checked(permissions[1..], seen + {p.id}).value);
    }
  }

  lemma NormalizedIsTrimmed(p: Permission)
    ensures var tools := Normalized(p).tools; forall i :: 0 <= i < |tools| ==> Trim(tools[i]) == tools[i] != ""
  {
    UniqueSortedIsTrimmed(p.tools);
    var tools := Normalized(p).tools;
    assert tools == UniqueSorted(p.tools);
    assert forall i :: 0 <= i < |tools| ==> Trim(tools[i]) == tools[i] != "";
  }

  lemma TrimmedToolsCons(p: Permission, rest: seq<Permission>)
    requires TrimmedTools(rest) && forall i :: 0 <= i < |p.tools| ==> Trim(p.tools[i]) == p.tools[i] != ""
    ensures TrimmedTools([p] + rest)
  {
  }

  /** The grants after one operation, as a function of the grants before. */
  function GrantsAfter(store: Store, hash: Hash, op: Op): seq<Grant> {
    match op
    case Ask(_, _) => store.grants
    case Allow(p, s, scope, ids, now) =>
      (match Granted(store, hash, p, s, scope, ids, now)
       case Err(_) => store.grants
       case Ok(g) => PutIn(store.grants, g))
    case Use(p, s, consume, _) =>
      if consume && Spends(store, hash, p, s) then RemoveAt(store.grants, Select(store.grants, p, s)) else store.grants
    case Withdraw(p, s, scope, ids, _) => Revoked(store.grants, p, s, scope, UniqueSorted(ids))
  }

  function PutIn(grants: seq<Grant>, g: Grant): seq<Grant> {
    var i := FindGrant(grants, KeyOf(g));
    if i < |grants| then grants[i := g] else grants + [g]
  }

  /** A consuming authorization here would use up a one-time grant. */
  predicate Spends(store: Store, hash: Hash, provider: string, session: string)
    ensures Spends(store, hash, provider, session) ==> Select(store.grants, provider, session) < |store.grants|
  {
    var answer := Answer(store, hash, provider, session);
    answer.Ok? && answer.value.scope == Once
  }

  lemma ApplyGrants(store: Store, hash: Hash, op: Op)
    ensures Apply(store, hash, op).grants == GrantsAfter(store, hash, op)
  {
  }

  lemma ApplyRequests(store: Store, hash: Hash, op: Op)
    ensures Apply(store, hash, op).requests ==
            if op.Ask? && Accepted(op.request, op.now).Ok?
            then PutRequest(store.requests, Accepted(op.request, op.now).value) else store.requests
  {
  }

  lemma PutInOrderly(grants: seq<Grant>, g: Grant)
    requires UniqueGrants(grants) && WellMade(g) && forall i :: 0 <= i < |grants| ==> WellMade(grants[i])
    ensures UniqueGrants(PutIn(grants, g)) && forall i :: 0 <= i < |PutIn(grants, g)| ==> WellMade(PutIn(grants, g)[i])
  {
  }

  lemma WithoutAscending(ids: seq<string>, removed: seq<string>)
    requires Ascending(ids)
    ensures Ascending(Without(ids, removed))
  {
    if ids != [] {
      WithoutAscending(ids[1..], removed);
      var rest := Without(ids[1..], removed);
      if ids[0] !in removed {
        forall j | 0 <= j < |rest| ensures Less(ids[0], rest[j]) {
          WithoutMembers(ids[1..], removed, rest[j]);
          var i :| 0 <= i < |ids[1..]| && ids[1..][i] == rest[j];
          assert ids[i + 1] == rest[j];
        }
      }
    }
  }

  lemma ReducedWellMade(g: Grant, ids: seq<string>)
    requires WellMade(g) && Reduced(g, ids).permissions != []
    ensures WellMade(Reduced(g, ids))
  {
    WithoutAscending(g.permissions, ids);
    var r := Reduced(g, ids);
    forall id ensures id in r.hashes.Keys <==> id in r.permissions {
      WithoutMembers(g.permissions, ids, id);
    }
    forall i | 0 <= i < |r.permissions| ensures Trim(r.permissions[i]) == r.permissions[i] != "" {
      WithoutMembers(g.permissions, ids, r.permissions[i]);
    }
  }

  lemma RevokedOneWellMade(g: Grant, p: string, s: string, scope: string, ids: seq<string>)
    requires WellMade(g)
    ensures var left := RevokedOne(g, p, s, scope, ids);
            |left| <= 1 && (left != [] ==> WellMade(left[0]) && KeyOf(left[0]) == KeyOf(g))
  {
    if Reduced(g, ids).permissions != [] { ReducedWellMade(g, ids); }
  }

  /** What is left of the grants comes from grants with the same keys. */
  lemma {:induction false} RevokedKey(grants: seq<Grant>, p: string, s: string, scope: string, ids: seq<string>, i: nat)
    returns (j: nat)
    requires i < |Revoked(grants, p, s, scope, ids)|
    ensures j < |grants| && KeyOf(grants[j]) == KeyOf(Revoked(grants, p, s, scope, ids)[i])
  {
    var first := RevokedOne(grants[0], p, s, scope, ids);
    if i < |first| {
      j := 0;
    } else {
      var k := RevokedKey(grants[1..], p, s, scope, ids, i - |first|);
      j := k + 1;
    }
  }

  lemma {:induction false} RevokedOrderly(grants: seq<Grant>, p: string, s: string, scope: string, ids: seq<string>)
    requires UniqueGrants(grants) && forall i :: 0 <= i < |grants| ==> WellMade(grants[i])
    ensures var after := Revoked(grants, p, s, scope, ids);
            UniqueGrants(after) && forall i :: 0 <= i < |after| ==> WellMade(after[i])
  {
    if grants != [] {
      var g, rest := grants[0], Revoked(grants[1..], p, s, scope, ids);
      RevokedOrderly(grants[1..], p, s, scope, ids);
      RevokedOneWellMade(g, p, s, scope, ids);
      forall i | 0 <= i < |rest| ensures KeyOf(rest[i]) != KeyOf(g) {
        var j := RevokedKey(grants[1..], p, s, scope, ids, i);
        assert grants[1..][j] == grants[j + 1];
      }
      OneMoreOrderly(RevokedOne(g, p, s, scope, ids), rest);
    }
  }

  lemma OneMoreOrderly(first: seq<Grant>, rest: seq<Grant>)
    requires |first| <= 1 && (first != [] ==> WellMade(first[0]))
    requires UniqueGrants(rest) && forall i :: 0 <= i < |rest| ==> WellMade(rest[i])
    requires first != [] ==> forall i :: 0 <= i < |rest| ==> KeyOf(rest[i]) != KeyOf(first[0])
    ensures UniqueGrants(first + rest) && forall i :: 0 <= i < |first + rest| ==> WellMade((first + rest)[i])
  {
    var all := first + rest;
    forall i, j | 0 <= i < j < |all| ensures KeyOf(all[i]) != KeyOf(all[j]) {
      assert all[j] == rest[j - |first|];
      if i >= |first| { assert all[i] == rest[i - |first|]; }
    }
  }

  lemma ApprovedIsWellMade(hash: Hash, request: Request, p: string, s: string, scope: Scope, allowed: seq<string>,
                           now: string)
    requires UniqueSorted(allowed) != []
    requires Ungrantable(UniqueSorted(allowed), Definitions(request.permissions)) == None
    ensures WellMade(Approve(hash, request, p, s, scope, UniqueSorted(allowed), now))
  {
    UniqueSortedIsTrimmed(allowed);
  }

  lemma GrantIsWellMade(store: Store, hash: Hash, p: string, s: string, scope: string, allowed: seq<string>,
                        now: string)
    requires Granted(store, hash, p, s, scope, allowed, now).Ok?
    ensures WellMade(Granted(store, hash, p, s, scope, allowed, now).value)
  {
    ApprovedIsWellMade(hash, GetRequest(store, p, s).value, p, s, ParseScope(scope).value, allowed, now);
  }

  lemma UniqueSortedIsTrimmed(values: seq<string>)
    ensures var r := UniqueSorted(values); forall i :: 0 <= i < |r| ==> Trim(r[i]) == r[i] != ""
  {
    var r := UniqueSorted(values);
    forall i | 0 <= i < |r| ensures Trim(r[i]) == r[i] != "" {
      assert Names(values, r[i]);
      var v :| 0 <= v < |values| && Trim(values[v]) == r[i];
      TrimIdempotent(values[v]);
    }
  }

  lemma GrantsStayOrderly(store: Store, hash: Hash, op: Op)
    requires UniqueGrants(store.grants) && forall i :: 0 <= i < |store.grants| ==> WellMade(store.grants[i])
    ensures var after := GrantsAfter(store, hash, op);
            UniqueGrants(after) && forall i :: 0 <= i < |after| ==> WellMade(after[i])
  {
    match op
    case Allow(p, s, scope, ids, now) =>
      var g := Granted(store, hash, p, s, scope, ids, now);
      if g.Ok? {
        GrantIsWellMade(store, hash, p, s, scope, ids, now);
        PutInOrderly(store.grants, g.value);
      }
    case Withdraw(p, s, scope, ids, _) => RevokedOrderly(store.grants, p, s, scope, UniqueSorted(ids));
    case Use(p, s, _, _) =>
      if Spends(store, hash, p, s) { RemovedOrderly(store.grants, Select(store.grants, p, s)); }
    case Ask(_, _) =>
  }

  lemma RemovedOrderly(grants: seq<Grant>, i: nat)
    requires UniqueGrants(grants) && forall j :: 0 <= j < |grants| ==> WellMade(grants[j])
    requires i < |grants|
    ensures var after := RemoveAt(grants, i);
            UniqueGrants(after) && forall j :: 0 <= j < |after| ==> WellMade(after[j])
  {
  }

  ghost predicate RequestsOrderly(requests: seq<Request>) {
    UniqueRequests(requests) && forall i :: 0 <= i < |requests| ==> TrimmedTools(requests[i].permissions)
  }

  function PutRequest(requests: seq<Request>, r: Request): seq<Request> {
    var i := FindRequest(requests, r.provider, r.session);
    if i < |requests| then requests[i := r] else requests + [r]
  }

  lemma PutRequestOrderly(requests: seq<Request>, r: Request)
    requires RequestsOrderly(requests) && TrimmedTools(r.permissions)
    ensures RequestsOrderly(PutRequest(requests, r))
  {
  }

  lemma AcceptedIsTrimmed(request: Request, now: string)
    requires Accepted(request, now).Ok?
    ensures TrimmedTools(Accepted(request, now).value.permissions)
  {
    CheckedIsTrimmed(request.permissions, {});
  }

  lemma ApplyOrderly(store: Store, hash: Hash, op: Op)
    requires Orderly(store)
    ensures Orderly(Apply(store, hash, op))
  {
    ApplyGrants(store, hash, op);
    ApplyRequests(store, hash, op);
    GrantsStayOrderly(store, hash, op);
    if op.Ask? && Accepted(op.request, op.now).Ok? {
      AcceptedIsTrimmed(op.request, op.now);
      PutRequestOrderly(store.requests, Accepted(op.request, op.now).value);
    }
  }

  /** In every reachable store there is one request per session, one grant per
      (provider, session, scope), and each grant hashes exactly what it lists. */
  lemma {:induction false} ReachableStoresAreOrderly(hash: Hash, ops: seq<Op>)
    ensures Orderly(Replay(hash, ops))
  {
    if ops != [] {
      ReachableStoresAreOrderly(hash, ops[..|ops| - 1]);
      ApplyOrderly(Replay(hash, ops[..|ops| - 1]), hash, ops[|ops| - 1]);
    }
  }

  // ---------------------------------------------------------- grant selection

  function Lookup(grants: seq<Grant>, key: GrantKey): Option<Grant> {
    var i := FindGrant(grants, key);
    if i < |grants| then Some(grants[i]) else None
  }

  /** The grant that counts: once over binding over provider. */
  function Best(grants: seq<Grant>, provider: string, session: string): Option<Grant> {
    var once := Lookup(grants, GrantKey(provider, session, Once));
    var binding := Lookup(grants, GrantKey(provider, session, Binding));
    if once.Some? then once else if binding.Some? then binding else Lookup(grants, GrantKey(provider, "", Provider))
  }

  lemma LookupIs(grants: seq<Grant>, i: nat)
    requires UniqueGrants(grants) && i < |grants|
    ensures Lookup(grants, KeyOf(grants[i])) == Some(grants[i])
  {
    var f := FindGrant(grants, KeyOf(grants[i]));
  }

  function ScopeKey(provider: string, session: string, scope: Scope): GrantKey {
    GrantKey(provider, if scope == Provider then "" else session, scope)
  }

  lemma SelectBeats(store: Store, provider: string, session: string, scope: Scope)
    requires Lookup(store.grants, ScopeKey(provider, session, scope)).Some?
    ensures var i := Select(store.grants, provider, session);
            i < |store.grants| && Priority(scope) <= Priority(store.grants[i].scope)
  {
    var f := FindGrant(store.grants, ScopeKey(provider, session, scope));
    assert Applies(store.grants[f], provider, session);
  }

  lemma SelectedKey(store: Store, provider: string, session: string)
    requires Orderly(store) && Select(store.grants, provider, session) < |store.grants|
    ensures var g := store.grants[Select(store.grants, provider, session)];
            KeyOf(g) == ScopeKey(provider, session, g.scope) && Lookup(store.grants, KeyOf(g)) == Some(g)
  {
    LookupIs(store.grants, Select(store.grants, provider, session));
  }

  lemma SelectIsBest(store: Store, provider: string, session: string)
    requires Orderly(store)
    ensures var i := Select(store.grants, provider, session);
            Best(store.grants, provider, session) == if i < |store.grants| then Some(store.grants[i]) else None
  {
    forall scope | Lookup(store.grants, ScopeKey(provider, session, scope)).Some?
      ensures var i := Select(store.grants, provider, session);
              i < |store.grants| && Priority(scope) <= Priority(store.grants[i].scope)
    {
      SelectBeats(store, provider, session, scope);
    }
    assert ScopeKey(provider, session, Once) == GrantKey(provider, session, Once);
    assert ScopeKey(provider, session, Binding) == GrantKey(provider, session, Binding);
    assert ScopeKey(provider, session, Provider) == GrantKey(provider, "", Provider);
    if Select(store.grants, provider, session) < |store.grants| {
      SelectedKey(store, provider, session);
    }
  }

  ghost predicate SameGrants(a: seq<Grant>, b: seq<Grant>) {
    forall g :: g in a <==> g in b
  }

  lemma LookupBySet(a: seq<Grant>, b: seq<Grant>, key: GrantKey)
    requires UniqueGrants(a) && UniqueGrants(b) && SameGrants(a, b)
    ensures Lookup(a, key) == Lookup(b, key)
  {
    var i, j := FindGrant(a, key), FindGrant(b, key);
    assert j < |b| ==> b[j] in b && b[j] in a;
    if i < |a| {
      assert a[i] in b;
      var k :| 0 <= k < |b| && b[k] == a[i];
      LookupIs(b, k);
    }
  }

  /** Authorize answers by the best grant, in whatever order grants are kept,
      and its lists are ascending without repetitions. */
  lemma AnswerIgnoresOrder(a: Store, b: Store, hash: Hash, provider: string, session: string)
    requires Orderly(a) && Orderly(b) && a.requests == b.requests && SameGrants(a.grants, b.grants)
    ensures Answer(a, hash, provider, session) == Answer(b, hash, provider, session)
    ensures var answer := Answer(a, hash, provider, session);
            answer.Ok? ==>
              && Best(a.grants, provider, session).Some?
              && answer.value.scope == Best(a.grants, provider, session).value.scope
              && Ascending(answer.value.permissions) && Ascending(answer.value.tools)
  {
    AnswerIsOfBest(a, hash, provider, session);
    AnswerIsOfBest(b, hash, provider, session);
    BestBySet(a.grants, b.grants, provider, session);
  }

  lemma BestBySet(a: seq<Grant>, b: seq<Grant>, provider: string, session: string)
    requires UniqueGrants(a) && UniqueGrants(b) && SameGrants(a, b)
    ensures Best(a, provider, session) == Best(b, provider, session)
  {
    LookupBySet(a, b, GrantKey(provider, session, Once));
    LookupBySet(a, b, GrantKey(provider, session, Binding));
    LookupBySet(a, b, GrantKey(provider, "", Provider));
  }

  lemma AnswerIsOfBest(store: Store, hash: Hash, provider: string, session: string)
    requires Orderly(store)
    ensures var best, request := Best(store.grants, provider, session), GetRequest(store, provider, session);
            Answer(store, hash, provider, session)
            == if request.None? then Err(RequestPending) else if best.None? then Err(NotGranted)
               else Worth(hash, best.value, request.value, provider, session)
  {
    SelectIsBest(store, provider, session);
  }

  // ------------------------------------------------- approvals over a history

  function HashFor(g: Option<Grant>, id: string): Option<string> {
    if g.Some? && id in g.value.permissions && id in g.value.hashes then Some(g.value.hashes[id]) else None
  }

  /** The grant an operation makes, when it makes one. */
  function Makes(hash: Hash, before: seq<Op>, op: Op): Option<Grant> {
    if !op.Allow? then None
    else match Granted(Replay(hash, before), hash, op.provider, op.session, op.scope, op.ids, op.now)
      case Err(_) => None
      case Ok(g) => Some(g)
  }

  /** The operation stores a grant under this key. */
  predicate MakesUnder(hash: Hash, before: seq<Op>, op: Op, key: GrantKey) {
    Makes(hash, before, op).Some? && KeyOf(Makes(hash, before, op).value) == key
  }

  /** The texts that name a scope; a grant without one is for the binding. */
  predicate Called(scope: Scope, text: string) {
    match scope
    case Once => text == "once"
    case Binding => text == "" || text == "binding"
    case Provider => text == "provider"
  }

  predicate AppliesTo(key: GrantKey, provider: string, session: string) {
    key.provider == provider && (key.scope == Provider || key.session == session)
  }

  /** A revocation that takes `id` from the grant with this key, if it has it. */
  predicate Takes(op: Op, key: GrantKey, id: string) {
    && op.Withdraw?
    && AppliesTo(key, op.provider, op.session)
    && (op.scope == "" || Called(key.scope, op.scope))
    && (UniqueSorted(op.ids) == [] || id in UniqueSorted(op.ids))
  }

  /** A successful consuming authorization that uses up this one-time grant. */
  predicate Consumes(hash: Hash, before: seq<Op>, op: Op, key: GrantKey) {
    && op.Use? && op.consume && key == GrantKey(op.provider, op.session, Once)
    && Spends(Replay(hash, before), hash, op.provider, op.session)
  }

  /** Ends an approval: replaces the grant, takes the id, or uses the grant up. */
  predicate Ends(hash: Hash, before: seq<Op>, op: Op, key: GrantKey, id: string) {
    || MakesUnder(hash, before, op, key)
    || Takes(op, key, id)
    || Consumes(hash, before, op, key)
  }

  /** The definition hash under which `id` is approved by the grant with this
      key, read off the history alone. */
  function Approved(hash: Hash, ops: seq<Op>, key: GrantKey, id: string): Option<string> {
    if ops == [] then None
    else
      var before, op := ops[..|ops| - 1], ops[|ops| - 1];
      if MakesUnder(hash, before, op, key) then HashFor(Makes(hash, before, op), id)
      else if Takes(op, key, id) || Consumes(hash, before, op, key) then None
      else Approved(hash, before, key, id)
  }

  lemma PutInLookup(grants: seq<Grant>, g: Grant, key: GrantKey)
    requires UniqueGrants(grants)
    ensures Lookup(PutIn(grants, g), key) == if key == KeyOf(g) then Some(g) else Lookup(grants, key)
  {
    var after := PutIn(grants, g);
    var i, f := FindGrant(grants, KeyOf(g)), FindGrant(grants, key);
    FindIs(after, key, if key == KeyOf(g) then i else if f < |grants| then f else |after|);
  }

  lemma FindIs(grants: seq<Grant>, key: GrantKey, i: nat)
    requires i <= |grants| && (i < |grants| ==> KeyOf(grants[i]) == key)
    requires forall j :: 0 <= j < i ==> KeyOf(grants[j]) != key
    ensures FindGrant(grants, key) == i
  {
  }

  lemma RemoveLookup(grants: seq<Grant>, i: nat, key: GrantKey)
    requires UniqueGrants(grants) && i < |grants|
    ensures Lookup(RemoveAt(grants, i), key) == if key == KeyOf(grants[i]) then None else Lookup(grants, key)
  {
    var after, f := RemoveAt(grants, i), FindGrant(grants, key);
    if key == KeyOf(grants[i]) || f == |grants| { FindIs(after, key, |after|); }
    else { FindIs(after, key, if f < i then f else f - 1); }
  }

  lemma {:induction false} RevokedLookup(grants: seq<Grant>, p: string, s: string, scope: string, ids: seq<string>,
                                         key: GrantKey)
    requires UniqueGrants(grants)
    ensures var was := Lookup(grants, key);
            var left := if was.Some? then RevokedOne(was.value, p, s, scope, ids) else [];
            Lookup(Revoked(grants, p, s, scope, ids), key) == if left == [] then None else Some(left[0])
  {
    if grants != [] {
      var first, rest := RevokedOne(grants[0], p, s, scope, ids), Revoked(grants[1..], p, s, scope, ids);
      RevokedLookup(grants[1..], p, s, scope, ids, key);
      if KeyOf(grants[0]) == key {
        assert Lookup(grants, key) == Some(grants[0]);
        FindIs(grants[1..], key, |grants| - 1);
        if first != [] { FindIs(first + rest, key, 0); } else { assert first + rest == rest; }
      } else {
        assert Lookup(grants, key) == Lookup(grants[1..], key);
        if first != [] {
          assert (first + rest)[1..] == rest;
          assert Lookup(first + rest, key) == Lookup(rest, key);
        } else {
          assert first + rest == rest;
        }
      }
    }
  }

  lemma RevokedHash(was: Option<Grant>, p: string, s: string, scope: string, ids: seq<string>, id: string)
    requires was.Some? ==> WellMade(was.value)
    ensures var left := if was.Some? then RevokedOne(was.value, p, s, scope, ids) else [];
            HashFor(if left == [] then None else Some(left[0]), id)
            == if was.Some? && Matches(was.value, p, s, scope) && (ids == [] || id in ids) then None
               else HashFor(was, id)
  {
    if was.Some? {
      WithoutMembers(was.value.permissions, ids, id);
    }
  }

  /** The grants kept in the store say exactly what the history says. */
  lemma {:induction false} GrantsMatchHistory(hash: Hash, ops: seq<Op>, key: GrantKey, id: string)
    ensures HashFor(Lookup(Replay(hash, ops).grants, key), id) == Approved(hash, ops, key, id)
  {
    if ops != [] {
      var before, op := ops[..|ops| - 1], ops[|ops| - 1];
      GrantsMatchHistory(hash, before, key, id);
      StepMatchesHistory(hash, before, op, key, id);
    }
  }

  lemma StepMatchesHistory(hash: Hash, before: seq<Op>, op: Op, key: GrantKey, id: string)
    requires HashFor(Lookup(Replay(hash, before).grants, key), id) == Approved(hash, before, key, id)
    ensures HashFor(Lookup(Apply(Replay(hash, before), hash, op).grants, key), id)
            == if MakesUnder(hash, before, op, key) then HashFor(Makes(hash, before, op), id)
               else if Takes(op, key, id) || Consumes(hash, before, op, key) then None
               else Approved(hash, before, key, id)
  {
    var store := Replay(hash, before);
    ReachableStoresAreOrderly(hash, before);
    ApplyGrants(store, hash, op);
    match op
    case Ask(_, _) =>
    case Allow(_, _, _, _, _) =>
      var made := Makes(hash, before, op);
      if made.Some? { PutInLookup(store.grants, made.value, key); }
    case Use(_, _, _, _) => UsedLookup(store, hash, op, key);
    case Withdraw(p, s, scope, ids, _) => WithdrawnHash(store.grants, op, key, id);
  }

  lemma UsedLookup(store: Store, hash: Hash, op: Op, key: GrantKey)
    requires op.Use? && UniqueGrants(store.grants)
    ensures var spent := op.consume && Spends(store, hash, op.provider, op.session);
            Lookup(Apply(store, hash, op).grants, key)
            == if spent && key == GrantKey(op.provider, op.session, Once) then None else Lookup(store.grants, key)
  {
    ApplyGrants(store, hash, op);
    if op.consume && Spends(store, hash, op.provider, op.session) {
      RemoveLookup(store.grants, Select(store.grants, op.provider, op.session), key);
    }
  }

  lemma WithdrawnHash(grants: seq<Grant>, op: Op, key: GrantKey, id: string)
    requires op.Withdraw? && UniqueGrants(grants) && forall i :: 0 <= i < |grants| ==> WellMade(grants[i])
    ensures HashFor(Lookup(Revoked(grants, op.provider, op.session, op.scope, UniqueSorted(op.ids)), key), id)
            == if Takes(op, key, id) then None else HashFor(Lookup(grants, key), id)
  {
    RevokedLookup(grants, op.provider, op.session, op.scope, UniqueSorted(op.ids), key);
    RevokedHash(Lookup(grants, key), op.provider, op.session, op.scope, UniqueSorted(op.ids), id);
    if Lookup(grants, key).Some? { TakesIff(Lookup(grants, key).value, op, id); }
  }

  lemma TakesIff(g: Grant, op: Op, id: string)
    requires op.Withdraw?
    ensures Takes(op, KeyOf(g), id)
            <==> Matches(g, op.provider, op.session, op.scope)
                 && (UniqueSorted(op.ids) == [] || id in UniqueSorted(op.ids))
  {
  }

  // ------------------------------------------------------------- the audit trail

  /** The entries an operation adds to the audit: one for a request, a grant or a
      revocation that takes effect and for an authorization that consumes, and one
      more when that uses up a one-time grant. */
  function EntriesOf(store: Store, hash: Hash, op: Op): seq<AuditEntry> {
    match op
    case Ask(request, now) =>
      (match Accepted(request, now)
       case Err(_) => []
       case Ok(r) => [RequestEntry(store, r, now)])
    case Allow(p, s, scope, ids, now) =>
      (match Granted(store, hash, p, s, scope, ids, now)
       case Err(_) => []
       case Ok(g) => [GrantEntry(store, g, s, scope, now)])
    case Use(p, s, consume, now) =>
      var answer := Answer(store, hash, p, s);
      if answer.Err? || !consume then [] else EntriesOfUse(answer.value, now)
    case Withdraw(p, s, scope, ids, now) =>
      if Changes(store.grants, p, s, scope, UniqueSorted(ids))
      then [AuditEntry(now, "grant.revoked", p, s, scope, UniqueSorted(ids))] else []
  }

  /** The audit calls a grant without a scope one for the binding. */
  function GrantEntry(store: Store, g: Grant, session: string, scope: string, now: string): AuditEntry {
    AuditEntry(now, if Lookup(store.grants, KeyOf(g)).Some? then "grant.updated" else "grant.created",
               g.provider, session, if scope == "" then "binding" else scope, g.permissions)
  }

  function EntriesOfUse(auth: Authorization, now: string): seq<AuditEntry> {
    [AuditEntry(now, "runtime.authorized", auth.provider, auth.session, ScopeName(auth.scope), auth.permissions)]
    + if auth.scope != Once then []
      else [AuditEntry(now, "grant.consumed", auth.provider, auth.session, ScopeName(Once), auth.permissions)]
  }

  /** Everything a history ever audited. */
  function Trail(hash: Hash, ops: seq<Op>): seq<AuditEntry> {
    if ops == [] then []
    else Trail(hash, ops[..|ops| - 1]) + EntriesOf(Replay(hash, ops[..|ops| - 1]), hash, ops[|ops| - 1])
  }

  function NewestEntries(trail: seq<AuditEntry>): seq<AuditEntry> {
    if |trail| > 1000 then trail[|trail| - 1000..] else trail
  }

  lemma AuditedIsNewest(store: Store, entry: AuditEntry, trail: seq<AuditEntry>)
    requires store.audit == NewestEntries(trail)
    ensures Audited(store, entry).audit == NewestEntries(trail + [entry])
  {
  }

  lemma UseIsAudited(store: Store, hash: Hash, op: Op, trail: seq<AuditEntry>)
    requires op.Use? && store.audit == NewestEntries(trail)
    ensures Apply(store, hash, op).audit == NewestEntries(trail + EntriesOf(store, hash, op))
  {
    var answer := Answer(store, hash, op.provider, op.session);
    if answer.Ok? && op.consume {
      ConsumedIsAudited(store, Select(store.grants, op.provider, op.session), answer.value, op.now, trail);
    } else {
      assert trail + [] == trail;
    }
  }

  lemma ConsumedIsAudited(store: Store, i: nat, auth: Authorization, now: string, trail: seq<AuditEntry>)
    requires i < |store.grants| && store.audit == NewestEntries(trail)
    ensures Consumed(store, i, auth, now).audit == NewestEntries(trail + EntriesOfUse(auth, now))
  {
    var noted := AuditEntry(now, "runtime.authorized", auth.provider, auth.session, ScopeName(auth.scope),
                            auth.permissions);
    var used := AuditEntry(now, "grant.consumed", auth.provider, auth.session, ScopeName(Once), auth.permissions);
    AuditedIsNewest(store, noted, trail);
    AuditedIsNewest(Audited(store, noted).(grants := RemoveAt(store.grants, i)), used, trail + [noted]);
    assert trail + ([noted] + [used]) == trail + [noted] + [used];
    assert trail + ([noted] + []) == trail + [noted];
  }

  lemma AskIsAudited(store: Store, hash: Hash, op: Op, trail: seq<AuditEntry>)
    requires op.Ask? && store.audit == NewestEntries(trail)
    ensures Apply(store, hash, op).audit == NewestEntries(trail + EntriesOf(store, hash, op))
  {
    var accepted := Accepted(op.request, op.now);
    if accepted.Ok? {
      AuditedIsNewest(store, RequestEntry(store, accepted.value, op.now), trail);
      StoreRequestIsAudited(store, accepted.value, op.now);
    } else {
      assert trail + [] == trail;
    }
  }

  function RequestEntry(store: Store, r: Request, now: string): AuditEntry {
    var known := GetRequest(store, r.provider, r.session).Some?;
    AuditEntry(now, if known then "request.updated" else "request.created", r.provider, r.session, "", [])
  }

  lemma StoreRequestIsAudited(store: Store, r: Request, now: string)
    ensures StoreRequest(store, r, now).audit == Audited(store, RequestEntry(store, r, now)).audit
  {
  }

  lemma AllowIsAudited(store: Store, hash: Hash, op: Op, trail: seq<AuditEntry>)
    requires op.Allow? && store.audit == NewestEntries(trail)
    ensures Apply(store, hash, op).audit == NewestEntries(trail + EntriesOf(store, hash, op))
  {
    var g := Granted(store, hash, op.provider, op.session, op.scope, op.ids, op.now);
    if g.Ok? {
      GrantedUnderText(store, hash, op.provider, op.session, op.scope, op.ids, op.now);
      PutIsAudited(store, g.value, op.session, op.scope, op.now, trail);
    } else {
      assert trail + [] == trail;
    }
  }

  lemma GrantedUnderText(store: Store, hash: Hash, p: string, s: string, scope: string, ids: seq<string>, now: string)
    requires Granted(store, hash, p, s, scope, ids, now).Ok?
    ensures ScopeName(Granted(store, hash, p, s, scope, ids, now).value.scope)
            == if scope == "" then "binding" else scope
  {
  }

  lemma PutIsAudited(store: Store, g: Grant, session: string, scope: string, now: string, trail: seq<AuditEntry>)
    requires store.audit == NewestEntries(trail) && ScopeName(g.scope) == if scope == "" then "binding" else scope
    ensures PutGrant(store, g, session, now).audit == NewestEntries(trail + [GrantEntry(store, g, session, scope, now)])
  {
  }

  lemma WithdrawIsAudited(store: Store, hash: Hash, op: Op, trail: seq<AuditEntry>)
    requires op.Withdraw? && store.audit == NewestEntries(trail)
    ensures Apply(store, hash, op).audit == NewestEntries(trail + EntriesOf(store, hash, op))
  {
    var entries := EntriesOf(store, hash, op);
    assert trail + [] == trail;
    if entries != [] { AuditedIsNewest(store, entries[0], trail); }
  }

  lemma ApplyIsAudited(store: Store, hash: Hash, op: Op, trail: seq<AuditEntry>)
    requires store.audit == NewestEntries(trail)
    ensures Apply(store, hash, op).audit == NewestEntries(trail + EntriesOf(store, hash, op))
  {
    match op
    case Ask(_, _) => AskIsAudited(store, hash, op, trail);
    case Allow(_, _, _, _, _) => AllowIsAudited(store, hash, op, trail);
    case Use(_, _, _, _) => UseIsAudited(store, hash, op, trail);
    case Withdraw(_, _, _, _, _) => WithdrawIsAudited(store, hash, op, trail);
  }

  /** After any history the audit is exactly the newest 1000 entries of all that
      were ever made. */
  lemma {:induction false} AuditKeepsNewest(hash: Hash, ops: seq<Op>)
    ensures Replay(hash, ops).audit == NewestEntries(Trail(hash, ops))
  {
    if ops != [] {
      var before := ops[..|ops| - 1];
      AuditKeepsNewest(hash, before);
      ApplyIsAudited(Replay(hash, before), hash, ops[|ops| - 1], Trail(hash, before));
    }
  }
}
