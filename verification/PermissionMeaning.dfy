/** What the operations of the permission store mean, said of the texts they are given
    and of the history behind the store: which requests are taken, what a grant holds,
    and exactly which ids and tools an authorization returns. */
module PermissionMeaning {
  import opened Common
  import opened Permissions
  import opened PermissionHistory
  import opened PermissionTheorems

  // --------------------------------------------------------------- what is asked for

  ghost predicate AskedBefore(asked: seq<Permission>, i: nat)
    requires i < |asked|
  {
    exists j :: 0 <= j < i && Trim(asked[j].id) == Trim(asked[i].id)
  }

  ghost predicate HasBrokenTool(tools: seq<string>) {
    exists i :: 0 <= i < |tools| && ('\r' in Trim(tools[i]) || '\n' in Trim(tools[i]))
  }

  ghost predicate HasTool(tools: seq<string>) {
    exists i :: 0 <= i < |tools| && Trim(tools[i]) != ""
  }

  /** What is wrong with the i-th permission that is asked for, if anything is. */
  ghost function FlawAt(asked: seq<Permission>, i: nat): Option<Refusal>
    requires i < |asked|
  {
    var p := asked[i];
    var id, risk, delegation := Trim(p.id), Trim(p.risk), Trim(p.delegation);
    if id == "" || Trim(p.title) == "" then Some(MissingName)
    else if AskedBefore(asked, i) then Some(DuplicatePermission)
    else if risk != "runtime" && risk != "read" && risk != "write" && risk != "sensitive" then Some(UnsupportedRisk)
    else if delegation != "background" && delegation != "interactive-only" then Some(UnsupportedDelegation)
    else if HasBrokenTool(p.tools) then Some(InvalidTool)
    else if id == "runtime.wake" && HasTool(p.tools) then Some(WakeMapsTools)
    else if id == "runtime.wake" && (risk != "runtime" || delegation != "background") then Some(WakeMisdescribed)
    else None
  }

  ghost function Flaws(asked: seq<Permission>): seq<Option<Refusal>> {
    seq(|asked|, i requires 0 <= i < |asked| => FlawAt(asked, i))
  }

  ghost predicate SoundFrom(flaws: seq<Option<Refusal>>, n: nat) {
    forall i :: n <= i < |flaws| ==> flaws[i] == None
  }

  /** `i` is the first flawed permission from `n` on, and this is what is wrong with it. */
  ghost predicate FirstFlaw(flaws: seq<Option<Refusal>>, n: nat, i: nat, flaw: Refusal) {
    n <= i < |flaws| && flaws[i] == Some(flaw) && forall j :: n <= j < i ==> flaws[j] == None
  }

  ghost predicate AsksForWake(asked: seq<Permission>) {
    exists i :: 0 <= i < |asked| && Trim(asked[i].id) == "runtime.wake"
  }

  /** A permission as it is stored: trimmed, with its tools ascending and once each. */
  ghost predicate StoredAs(asked: Permission, p: Permission) {
    && p.id == Trim(asked.id) && p.title == Trim(asked.title) && p.description == asked.description
    && p.risk == Trim(asked.risk) && p.delegation == Trim(asked.delegation)
    && Ascending(p.tools) && forall tool :: tool in p.tools <==> Common.Names(asked.tools, tool)
  }

  ghost predicate AllStoredAs(asked: seq<Permission>, n: nat, stored: seq<Permission>) {
    n <= |asked| && |stored| == |asked| - n && forall i :: 0 <= i < |stored| ==> StoredAs(asked[n + i], stored[i])
  }

  ghost predicate SeenAre(asked: seq<Permission>, n: nat, seen: set<string>) {
    n <= |asked| && forall id :: id in seen <==> exists j :: 0 <= j < n && Trim(asked[j].id) == id
  }

  lemma BrokenToolStays(tools: seq<string>)
    ensures HasBrokenTool(tools)
            <==> exists i :: 0 <= i < |UniqueSorted(tools)| && HasLineBreak(UniqueSorted(tools)[i])
    ensures UniqueSorted(tools) != [] <==> HasTool(tools)
  {
    var kept := UniqueSorted(tools);
    forall i | 0 <= i < |tools| && Trim(tools[i]) != "" ensures Trim(tools[i]) in kept {
      assert Common.Names(tools, Trim(tools[i]));
    }
    forall j | 0 <= j < |kept| ensures exists i :: 0 <= i < |tools| && Trim(tools[i]) == kept[j] != "" {
      assert Common.Names(tools, kept[j]);
    }
  }

  lemma FlawIs(asked: seq<Permission>, n: nat, seen: set<string>)
    requires n < |asked| && SeenAre(asked, n, seen)
    ensures Flaw(Normalized(asked[n]), seen) == FlawAt(asked, n)
  {
    BrokenToolStays(asked[n].tools);
  }

  lemma SeenMore(asked: seq<Permission>, n: nat, seen: set<string>)
    requires n < |asked| && SeenAre(asked, n, seen)
    ensures SeenAre(asked, n + 1, seen + {Trim(asked[n].id)})
  {
    forall id | id in seen + {Trim(asked[n].id)} ensures exists j :: 0 <= j < n + 1 && Trim(asked[j].id) == id {
      if id !in seen { assert Trim(asked[n].id) == id; }
    }
  }

  lemma CheckedNext(asked: seq<Permission>, n: nat, seen: set<string>)
    requires n < |asked| && SeenAre(asked, n, seen)
    ensures var p := Normalized(asked[n]);
            var rest := Checked(asked[n + 1..], seen + {p.id});
            Checked(asked[n..], seen)
            == if Flaws(asked)[n].Some? then Err(Flaws(asked)[n].value)
               else if rest.Err? then rest else Ok([p] + rest.value)
  {
    assert asked[n..][0] == asked[n] && asked[n..][1..] == asked[n + 1..];
    FlawIs(asked, n, seen);
  }

  /** The validation takes a list as it is stored, or reports the first flaw in it. */
  ghost predicate CheckedAs(asked: seq<Permission>, flaws: seq<Option<Refusal>>, n: nat,
                            checked: Result<seq<Permission>, Refusal>, bad: nat)
  {
    if SoundFrom(flaws, n) then checked.Ok? && AllStoredAs(asked, n, checked.value)
    else checked.Err? && FirstFlaw(flaws, n, bad, checked.error)
  }

  lemma {:induction false} CheckedMeans(asked: seq<Permission>, flaws: seq<Option<Refusal>>, n: nat, seen: set<string>)
    returns (bad: nat)
    requires SeenAre(asked, n, seen) && flaws == Flaws(asked)
    ensures CheckedAs(asked, flaws, n, Checked(asked[n..], seen), bad)
    decreases |asked| - n, 1
  {
    if n == |asked| {
      bad := n;
    } else {
      CheckedNext(asked, n, seen);
      bad := CheckedTail(asked, flaws, n, seen);
      var p := Normalized(asked[n]);
      CheckedCons(asked, flaws, n, Checked(asked[n + 1..], seen + {p.id}), Checked(asked[n..], seen), bad);
    }
  }

  lemma {:induction false} CheckedTail(asked: seq<Permission>, flaws: seq<Option<Refusal>>, n: nat, seen: set<string>)
    returns (bad: nat)
    requires n < |asked| && SeenAre(asked, n, seen) && flaws == Flaws(asked)
    ensures if flaws[n] == None
            then CheckedAs(asked, flaws, n + 1, Checked(asked[n + 1..], seen + {Normalized(asked[n]).id}), bad)
            else bad == n
    decreases |asked| - n, 0
  {
    bad := n;
    SeenMore(asked, n, seen);
    if flaws[n] == None { bad := CheckedMeans(asked, flaws, n + 1, seen + {Normalized(asked[n]).id}); }
  }

  lemma CheckedCons(asked: seq<Permission>, flaws: seq<Option<Refusal>>, n: nat,
                    rest: Result<seq<Permission>, Refusal>, all: Result<seq<Permission>, Refusal>, bad: nat)
    requires n < |asked| == |flaws|
    requires if flaws[n] == None then CheckedAs(asked, flaws, n + 1, rest, bad) else bad == n
    requires all == if flaws[n].Some? then Err(flaws[n].value) else if rest.Err? then rest
                    else Ok([Normalized(asked[n])] + rest.value)
    ensures CheckedAs(asked, flaws, n, all, bad)
  {
    if flaws[n] == None {
      assert SoundFrom(flaws, n) <==> SoundFrom(flaws, n + 1);
      if rest.Ok? { StoredCons(asked, n, Normalized(asked[n]), rest.value); }
    }
  }

  lemma StoredCons(asked: seq<Permission>, n: nat, p: Permission, rest: seq<Permission>)
    requires n < |asked| && p == Normalized(asked[n]) && AllStoredAs(asked, n + 1, rest)
    ensures AllStoredAs(asked, n, [p] + rest)
  {
    var all := [p] + rest;
    forall i | 0 <= i < |all| ensures StoredAs(asked[n + i], all[i]) {
      if i > 0 { assert all[i] == rest[i - 1] && asked[n + i] == asked[n + 1 + (i - 1)]; }
    }
  }

  /** Which requests are taken, and as what. One is refused for a blank id, for an
      empty list, for the first flaw in it, or for not asking for `runtime.wake`. */
  lemma RequestMeans(request: Request, now: string) returns (bad: nat)
    ensures var r, asked := Accepted(request, now), request.permissions;
            if Trim(request.provider) == "" || Trim(request.session) == "" || Trim(request.requestId) == ""
            then r == Err(MissingIds)
            else if asked == [] then r == Err(NoPermissions)
            else if !SoundFrom(Flaws(asked), 0) then r.Err? && FirstFlaw(Flaws(asked), 0, bad, r.error)
            else if !AsksForWake(asked) then r == Err(WakeNotRequested)
            else
              && r.Ok? && r.value.provider == Trim(request.provider) && r.value.session == Trim(request.session)
              && r.value.requestId == Trim(request.requestId) && r.value.requestedAt == now
              && AllStoredAs(asked, 0, r.value.permissions)
  {
    var asked := request.permissions;
    assert asked[0..] == asked;
    bad := CheckedMeans(asked, Flaws(asked), 0, {});
    if SoundFrom(Flaws(asked), 0) { MentionsWakeIff(asked, Checked(asked, {}).value); }
  }

  lemma MentionsWakeIff(asked: seq<Permission>, stored: seq<Permission>)
    requires AllStoredAs(asked, 0, stored)
    ensures Mentions(stored, "runtime.wake") <==> AsksForWake(asked)
  {
    if AsksForWake(asked) {
      var i :| 0 <= i < |asked| && Trim(asked[i].id) == "runtime.wake";
      assert StoredAs(asked[0 + i], stored[i]);
    }
    if Mentions(stored, "runtime.wake") {
      var i :| 0 <= i < |stored| && stored[i].id == "runtime.wake";
      assert StoredAs(asked[0 + i], stored[i]);
    }
  }

  /** An accepted request is what a session has asked for from then on; requests of
      other sessions, and all grants, stay. */
  lemma RequestLeaves(store: Store, hash: Hash, request: Request, now: string, p: string, s: string)
    ensures var after, r := PermissionHistory.Apply(store, hash, Ask(request, now)), Accepted(request, now);
            && after.grants == store.grants
            && GetRequest(after, p, s)
               == if r.Ok? && p == Trim(request.provider) && s == Trim(request.session) then Some(r.value)
                  else GetRequest(store, p, s)
  {
    var op, r := Ask(request, now), Accepted(request, now);
    ApplyGrants(store, hash, op);
    ApplyRequests(store, hash, op);
    if r.Ok? { PutIsLocal(store.requests, r.value, p, s); }
  }

  lemma PutIsLocal(requests: seq<Request>, r: Request, p: string, s: string)
    ensures var after := PutRequest(requests, r);
            var i, f := FindRequest(after, p, s), FindRequest(requests, p, s);
            if p == r.provider && s == r.session then i < |after| && after[i] == r
            else if f < |requests| then i < |after| && after[i] == requests[f] else i == |after|
  {
    var after := PutRequest(requests, r);
    var at, f := FindRequest(requests, r.provider, r.session), FindRequest(requests, p, s);
    RequestIsAt(after, p, s, if p == r.provider && s == r.session then at
                             else if f < |requests| then f else |after|);
  }

  lemma RequestIsAt(requests: seq<Request>, p: string, s: string, i: nat)
    requires i <= |requests| && (i < |requests| ==> requests[i].provider == p && requests[i].session == s)
    requires forall j :: 0 <= j < i ==> !(requests[j].provider == p && requests[j].session == s)
    ensures FindRequest(requests, p, s) == i
  {
  }

  // ------------------------------------------------------------------ definitions

  ghost predicate DistinctDefinitions(permissions: seq<Permission>) {
    forall i, j :: 0 <= i < j < |permissions| ==> permissions[i].id != permissions[j].id
  }

  lemma AcceptedIsDistinct(request: Request, now: string)
    requires Accepted(request, now).Ok?
    ensures DistinctDefinitions(Accepted(request, now).value.permissions)
  {
    var bad := RequestMeans(request, now);
    var asked, stored := request.permissions, Accepted(request, now).value.permissions;
    forall i, j | 0 <= i < j < |stored| ensures stored[i].id != stored[j].id {
      assert StoredAs(asked[0 + i], stored[i]) && StoredAs(asked[0 + j], stored[j]);
      assert Flaws(asked)[j] == None;
    }
  }

  ghost predicate AllDistinct(requests: seq<Request>) {
    forall i :: 0 <= i < |requests| ==> DistinctDefinitions(requests[i].permissions)
  }

  lemma PutKeepsDistinct(requests: seq<Request>, r: Request)
    requires AllDistinct(requests) && DistinctDefinitions(r.permissions)
    ensures AllDistinct(PutRequest(requests, r))
  {
    var after := PutRequest(requests, r);
    forall i | 0 <= i < |after| ensures DistinctDefinitions(after[i].permissions) {
      assert after[i] == r || (i < |requests| && after[i] == requests[i]);
    }
  }

  lemma {:induction false} RequestsAreDistinct(hash: Hash, ops: seq<Op>)
    ensures AllDistinct(Replay(hash, ops).requests)
  {
    if ops != [] {
      var before, op := ops[..|ops| - 1], ops[|ops| - 1];
      RequestsAreDistinct(hash, before);
      ApplyRequests(Replay(hash, before), hash, op);
      if op.Ask? && Accepted(op.request, op.now).Ok? {
        AcceptedIsDistinct(op.request, op.now);
        PutKeepsDistinct(Replay(hash, before).requests, Accepted(op.request, op.now).value);
      }
    }
  }

  lemma {:induction false} DefinedIsListed(permissions: seq<Permission>, i: nat)
    requires i < |permissions| && DistinctDefinitions(permissions)
    ensures permissions[i].id in Definitions(permissions)
    ensures Definitions(permissions)[permissions[i].id] == permissions[i]
  {
    if i < |permissions| - 1 { DefinedIsListed(permissions[..|permissions| - 1], i); }
  }

  lemma {:induction false} ListedIsDefined(permissions: seq<Permission>, id: string) returns (i: nat)
    requires id in Definitions(permissions)
    ensures i < |permissions| && permissions[i].id == id
  {
    var last := |permissions| - 1;
    if permissions[last].id == id { i := last; } else { i := ListedIsDefined(permissions[..last], id); }
  }

  /** The definition of an id is the one permission of that id in the request that
      stands. */
  lemma DefinitionMeans(hash: Hash, ops: seq<Op>, provider: string, session: string, id: string, p: Permission)
    ensures var store := Replay(hash, ops);
            var request := GetRequest(store, provider, session);
            DefinitionIn(store, provider, session, id) == Some(p)
            <==> request.Some? && p in request.value.permissions && p.id == id
  {
    var request := GetRequest(Replay(hash, ops), provider, session);
    if request.Some? {
      RequestsAreDistinct(hash, ops);
      var permissions := request.value.permissions;
      assert DistinctDefinitions(permissions);
      if id in Definitions(permissions) {
        var i := ListedIsDefined(permissions, id);
        DefinedIsListed(permissions, i);
      }
      if p in permissions && p.id == id {
        var i :| 0 <= i < |permissions| && permissions[i] == p;
        DefinedIsListed(permissions, i);
      }
    }
  }

  // ------------------------------------------------------------------------ grants

  ghost predicate MayBeDelegated(store: Store, provider: string, session: string, id: string) {
    var p := DefinitionIn(store, provider, session, id);
    p.Some? && p.value.delegation != "interactive-only"
  }

  /** `i` is the first id that cannot be granted, and this is why. */
  ghost predicate FirstRefused(store: Store, provider: string, session: string, ids: seq<string>, i: nat,
                               refusal: Refusal)
  {
    && i < |ids| && !MayBeDelegated(store, provider, session, ids[i])
    && (forall j :: 0 <= j < i ==> MayBeDelegated(store, provider, session, ids[j]))
    && refusal == if DefinitionIn(store, provider, session, ids[i]).None? then NotRequested else InteractiveOnly
  }

  /** The grant of these ids: its fields are those of the call, a provider-wide one
      names no session, and each id is held under the hash of its definition. */
  ghost predicate GrantOf(store: Store, hash: Hash, provider: string, session: string, scope: string,
                          ids: seq<string>, now: string, g: Grant)
  {
    && g.provider == provider && g.sourceSession == session && g.grantedAt == now
    && g.session == (if scope == "provider" then "" else session)
    && (g.scope == Once <==> scope == "once")
    && (g.scope == Provider <==> scope == "provider")
    && (g.scope == Binding <==> scope == "" || scope == "binding")
    && GetRequest(store, provider, session).Some?
    && g.requestId == GetRequest(store, provider, session).value.requestId
    && g.permissions == ids
    && (forall id :: id in g.hashes <==> id in ids)
    && forall id :: id in ids ==>
         var p := DefinitionIn(store, provider, session, id); p.Some? && g.hashes[id] == hash(p.value)
  }

  lemma {:induction false} UngrantableMeans(store: Store, provider: string, session: string, request: Request,
                                            ids: seq<string>) returns (bad: nat)
    requires GetRequest(store, provider, session) == Some(request)
    ensures var refusal := Ungrantable(ids, Definitions(request.permissions));
            if refusal.Some? then FirstRefused(store, provider, session, ids, bad, refusal.value)
            else forall i :: 0 <= i < |ids| ==> MayBeDelegated(store, provider, session, ids[i])
  {
    bad := 0;
    if ids != [] && MayBeDelegated(store, provider, session, ids[0]) {
      var rest := UngrantableMeans(store, provider, session, request, ids[1..]);
      bad := rest + 1;
      assert forall j :: 0 < j < |ids| ==> ids[j] == ids[1..][j - 1];
    }
  }

  /** What a grant is made of, or why it is refused: no request, a scope text that
      names none, no id that is not blank, the first id that is not on request or only
      for interactive use, or no `runtime.wake` among the ids. */
  lemma GrantMeans(store: Store, hash: Hash, provider: string, session: string, scope: string, allowed: seq<string>,
                   now: string)
    returns (bad: nat)
    ensures var r, ids := Granted(store, hash, provider, session, scope, allowed, now), UniqueSorted(allowed);
            if GetRequest(store, provider, session).None? then r == Err(RequestPending)
            else if scope != "" && scope != "once" && scope != "binding" && scope != "provider"
            then r == Err(UnsupportedScope)
            else if !HasTool(allowed) then r == Err(NothingAllowed)
            else if exists i :: 0 <= i < |ids| && !MayBeDelegated(store, provider, session, ids[i])
            then r.Err? && FirstRefused(store, provider, session, ids, bad, r.error)
            else if !Common.Names(allowed, "runtime.wake") then r == Err(WakeNotAllowed)
            else r.Ok? && GrantOf(store, hash, provider, session, scope, ids, now, r.value)
  {
    var request, ids := GetRequest(store, provider, session), UniqueSorted(allowed);
    bad := 0;
    BrokenToolStays(allowed);
    if request.Some? { bad := UngrantableMeans(store, provider, session, request.value, ids); }
  }

  /** A made grant is what is found under its provider, session and scope; the grants
      of other keys, and all requests, stay. */
  lemma GrantLeaves(hash: Hash, ops: seq<Op>, op: Op, key: GrantKey)
    requires op.Allow?
    ensures var store := Replay(hash, ops);
            var r := Granted(store, hash, op.provider, op.session, op.scope, op.ids, op.now);
            var after := PermissionHistory.Apply(store, hash, op);
            && after.requests == store.requests
            && PermissionHistory.Lookup(after.grants, key)
               == if r.Ok? && key.provider == op.provider && Called(key.scope, op.scope)
                     && key.session == (if op.scope == "provider" then "" else op.session)
                  then Some(r.value) else PermissionHistory.Lookup(store.grants, key)
  {
    var store := Replay(hash, ops);
    ReachableStoresAreOrderly(hash, ops);
    ApplyGrants(store, hash, op);
    ApplyRequests(store, hash, op);
    var bad := GrantMeans(store, hash, op.provider, op.session, op.scope, op.ids, op.now);
    var r := Granted(store, hash, op.provider, op.session, op.scope, op.ids, op.now);
    if r.Ok? { PutInLookup(store.grants, r.value, key); }
  }

  // ---------------------------------------------------------------- authorizations

  /** The history approves the id under this key, with the hash of the definition that
      is requested now. */
  ghost predicate ApprovedNow(hash: Hash, ops: seq<Op>, key: GrantKey, provider: string, session: string, id: string) {
    var now := DefinitionIn(Replay(hash, ops), provider, session, id);
    now.Some? && Approved(hash, ops, key, id) == Some(hash(now.value))
  }

  lemma {:induction false} ToolsAreOwned(requested: map<string, Permission>, ids: seq<string>, tool: string)
    requires forall id :: id in ids ==> id in requested
    ensures tool in ToolsOf(requested, ids) <==> exists id :: id in ids && tool in requested[id].tools
  {
    if ids != [] {
      ToolsAreOwned(requested, ids[1..], tool);
      assert forall id :: id in ids <==> id == ids[0] || id in ids[1..];
    }
  }

  /** Trimmed, non-empty values are kept as they are. */
  lemma KeptAsTheyAre(values: seq<string>)
    requires forall v :: v in values ==> Trim(v) == v != ""
    ensures forall y :: y in UniqueSorted(values) <==> y in values
  {
    forall y ensures y in UniqueSorted(values) <==> y in values {
      if y in values { NamesItself(values, y); }
      if y in UniqueSorted(values) { var raw := NamedBy(values, y); }
    }
  }

  lemma WorthMeans(hash: Hash, ops: seq<Op>, g: Grant, provider: string, session: string, id: string)
    requires var store := Replay(hash, ops);
             WellMade(g) && GetRequest(store, provider, session).Some?
             && PermissionHistory.Lookup(store.grants, KeyOf(g)) == Some(g)
    ensures var requested := Definitions(GetRequest(Replay(hash, ops), provider, session).value.permissions);
            id in CurrentIds(hash, g, requested, g.permissions)
            <==> ApprovedNow(hash, ops, KeyOf(g), provider, session, id)
  {
    GrantsMatchHistory(hash, ops, KeyOf(g), id);
  }

  lemma CurrentAreTrimmed(hash: Hash, g: Grant, requested: map<string, Permission>)
    requires WellMade(g)
    ensures var ids := CurrentIds(hash, g, requested, g.permissions);
            forall id :: id in UniqueSorted(ids) <==> id in ids
  {
    var ids := CurrentIds(hash, g, requested, g.permissions);
    forall id | id in ids ensures Trim(id) == id != "" {
      var i :| 0 <= i < |g.permissions| && g.permissions[i] == id;
    }
    KeptAsTheyAre(ids);
  }

  lemma WorthTools(store: Store, provider: string, session: string, ids: seq<string>, tool: string)
    requires GetRequest(store, provider, session).Some?
    requires var permissions := GetRequest(store, provider, session).value.permissions;
             TrimmedTools(permissions) && forall id :: id in ids ==> id in Definitions(permissions)
    ensures var requested := Definitions(GetRequest(store, provider, session).value.permissions);
            tool in UniqueSorted(ToolsOf(requested, ids))
            <==> exists id :: id in ids && IsToolOf(store, provider, session, id, tool)
  {
    var permissions := GetRequest(store, provider, session).value.permissions;
    var requested := Definitions(permissions);
    var tools := ToolsOf(requested, ids);
    forall t | t in tools ensures Trim(t) == t != "" {
      var id := ToolHasOwner(requested, ids, t);
      DefinitionsAreMembers(permissions, id);
    }
    KeptAsTheyAre(tools);
    ToolsAreOwned(requested, ids, tool);
    assert forall id :: id in ids ==> (tool in requested[id].tools <==> IsToolOf(store, provider, session, id, tool));
  }

  /** Just the ids that the history approves under this key as they are requested now. */
  ghost predicate ExactIds(hash: Hash, ops: seq<Op>, key: GrantKey, provider: string, session: string,
                           ids: seq<string>)
  {
    Ascending(ids) && forall id :: id in ids <==> ApprovedNow(hash, ops, key, provider, session, id)
  }

  /** Just the tools of the definitions of these ids. */
  ghost predicate ExactTools(store: Store, provider: string, session: string, ids: seq<string>, tools: seq<string>) {
    && Ascending(tools)
    && forall tool :: tool in tools <==> exists id :: id in ids && IsToolOf(store, provider, session, id, tool)
  }

  lemma WorthIds(hash: Hash, ops: seq<Op>, g: Grant, provider: string, session: string)
    requires WellMade(g) && GetRequest(Replay(hash, ops), provider, session).Some?
    requires PermissionHistory.Lookup(Replay(hash, ops).grants, KeyOf(g)) == Some(g)
    ensures var requested := Definitions(GetRequest(Replay(hash, ops), provider, session).value.permissions);
            var ids := CurrentIds(hash, g, requested, g.permissions);
            ExactIds(hash, ops, KeyOf(g), provider, session, UniqueSorted(ids))
  {
    var requested := Definitions(GetRequest(Replay(hash, ops), provider, session).value.permissions);
    CurrentAreTrimmed(hash, g, requested);
    forall id
      ensures id in UniqueSorted(CurrentIds(hash, g, requested, g.permissions))
              <==> ApprovedNow(hash, ops, KeyOf(g), provider, session, id)
    {
      WorthMeans(hash, ops, g, provider, session, id);
    }
  }

  lemma WorthAllTools(store: Store, provider: string, session: string, ids: seq<string>)
    requires GetRequest(store, provider, session).Some?
    requires var permissions := GetRequest(store, provider, session).value.permissions;
             TrimmedTools(permissions) && forall id :: id in ids ==> id in Definitions(permissions)
    requires forall id :: id in UniqueSorted(ids) <==> id in ids
    ensures var requested := Definitions(GetRequest(store, provider, session).value.permissions);
            ExactTools(store, provider, session, UniqueSorted(ids), UniqueSorted(ToolsOf(requested, ids)))
  {
    var requested := Definitions(GetRequest(store, provider, session).value.permissions);
    forall tool
      ensures tool in UniqueSorted(ToolsOf(requested, ids))
              <==> exists id :: id in UniqueSorted(ids) && IsToolOf(store, provider, session, id, tool)
    {
      WorthTools(store, provider, session, ids, tool);
    }
  }

  lemma WorthIs(hash: Hash, g: Grant, request: Request, provider: string, session: string)
    returns (ids: seq<string>)
    ensures ids == CurrentIds(hash, g, Definitions(request.permissions), g.permissions)
    ensures Worth(hash, g, request, provider, session)
            == if "runtime.wake" !in UniqueSorted(ids) then Err(WakeMissingOrChanged)
               else Ok(Authorization(provider, session, g.scope, UniqueSorted(ids),
                                     UniqueSorted(ToolsOf(Definitions(request.permissions), ids))))
  {
    ids := CurrentIds(hash, g, Definitions(request.permissions), g.permissions);
  }

  /** The answer for a grant that is stored: an error, or exactly what is approved. */
  ghost predicate AnswersExactly(hash: Hash, ops: seq<Op>, key: GrantKey, provider: string, session: string,
                                 answer: Result<Authorization, Refusal>)
  {
    if !ApprovedNow(hash, ops, key, provider, session, "runtime.wake") then answer == Err(WakeMissingOrChanged)
    else
      && answer.Ok?
      && answer.value.provider == provider && answer.value.session == session && answer.value.scope == key.scope
      && ExactIds(hash, ops, key, provider, session, answer.value.permissions)
      && ExactTools(Replay(hash, ops), provider, session, answer.value.permissions, answer.value.tools)
  }

  lemma AnswersFrom(hash: Hash, ops: seq<Op>, key: GrantKey, provider: string, session: string, ids: seq<string>,
                    tools: seq<string>)
    requires ExactIds(hash, ops, key, provider, session, ids)
    requires ExactTools(Replay(hash, ops), provider, session, ids, tools)
    ensures AnswersExactly(hash, ops, key, provider, session,
                           if "runtime.wake" !in ids then Err(WakeMissingOrChanged)
                           else Ok(Authorization(provider, session, key.scope, ids, tools)))
  {
  }

  lemma WorthIsExact(hash: Hash, ops: seq<Op>, g: Grant, provider: string, session: string)
    requires WellMade(g) && GetRequest(Replay(hash, ops), provider, session).Some?
    requires TrimmedTools(GetRequest(Replay(hash, ops), provider, session).value.permissions)
    requires PermissionHistory.Lookup(Replay(hash, ops).grants, KeyOf(g)) == Some(g)
    ensures AnswersExactly(hash, ops, KeyOf(g), provider, session,
                           Worth(hash, g, GetRequest(Replay(hash, ops), provider, session).value, provider, session))
  {
    var store := Replay(hash, ops);
    var request := GetRequest(store, provider, session).value;
    var ids := WorthIs(hash, g, request, provider, session);
    CurrentAreTrimmed(hash, g, Definitions(request.permissions));
    WorthIds(hash, ops, g, provider, session);
    WorthAllTools(store, provider, session, ids);
    AnswersFrom(hash, ops, KeyOf(g), provider, session, UniqueSorted(ids),
                UniqueSorted(ToolsOf(Definitions(request.permissions), ids)));
  }

  /** Exactly what Authorize answers, on any history. It succeeds if and only if the
      session has a request, a grant counts for it, and the history approves
      `runtime.wake` under that grant as it is requested now; its ids are exactly the
      ones so approved, and its tools exactly the tools of their definitions. */
  lemma AnswerIsExact(hash: Hash, ops: seq<Op>, provider: string, session: string)
    ensures var store := Replay(hash, ops);
            var answer, best := Answer(store, hash, provider, session), Best(store.grants, provider, session);
            if GetRequest(store, provider, session).None? then answer == Err(RequestPending)
            else if best.None? then answer == Err(NotGranted)
            else AnswersExactly(hash, ops, KeyOf(best.value), provider, session, answer)
  {
    var store := Replay(hash, ops);
    var best, request := Best(store.grants, provider, session), GetRequest(store, provider, session);
    ReachableStoresAreOrderly(hash, ops);
    AnswerIsOfBest(store, hash, provider, session);
    if request.Some? && best.Some? {
      BestIsStored(store, provider, session);
      WorthIsExact(hash, ops, best.value, provider, session);
    }
  }

  lemma BestIsStored(store: Store, provider: string, session: string)
    requires Orderly(store) && Best(store.grants, provider, session).Some?
    ensures var g := Best(store.grants, provider, session).value;
            WellMade(g) && PermissionHistory.Lookup(store.grants, KeyOf(g)) == Some(g)
  {
  }

  /** What Authorize leaves. Only a consuming success changes anything but the audit:
      it uses up the session's one-time grant, when that is the one that counts. */
  lemma AuthorizationLeaves(hash: Hash, ops: seq<Op>, op: Op, key: GrantKey)
    requires op.Use?
    ensures var store := Replay(hash, ops);
            var answer, after := Answer(store, hash, op.provider, op.session), PermissionHistory.Apply(store, hash, op);
            && after.requests == store.requests
            && (!op.consume || answer.Err? ==> after == store)
            && PermissionHistory.Lookup(after.grants, key)
               == if op.consume && answer.Ok? && answer.value.scope == Once
                     && key == GrantKey(op.provider, op.session, Once)
                  then None else PermissionHistory.Lookup(store.grants, key)
  {
    var store := Replay(hash, ops);
    ReachableStoresAreOrderly(hash, ops);
    ApplyRequests(store, hash, op);
    UsedLookup(store, hash, op, key);
  }

  // ---------------------------------------------------------- a request of AWP's own

  /** The request that AWP writes itself: `runtime.wake` and the allowed ids, ascending
      and once each, all for background use and titled by themselves; the tools go to
      every id but `runtime.wake`, which alone is a runtime permission. */
  lemma LocalRequestMeans(provider: string, session: string, allow: seq<string>, tools: seq<string>)
    returns (ids: seq<string>)
    ensures Ascending(ids) && forall id :: id in ids <==> id == "runtime.wake" || Common.Names(allow, id)
    ensures var r := LocalRequest(provider, session, allow, tools);
            && r.provider == provider && r.session == session && r.requestId == "local"
            && |r.permissions| == |ids|
            && forall i :: 0 <= i < |ids| ==>
                 r.permissions[i] == (if ids[i] == "runtime.wake"
                                      then Permission(ids[i], ids[i], "", "runtime", "background", [])
                                      else Permission(ids[i], ids[i], "", "read", "background", tools))
  {
    ids := UniqueSorted(["runtime.wake"] + allow);
    assert Trim("runtime.wake") == "runtime.wake";
    assert (["runtime.wake"] + allow)[1..] == allow;
    forall id ensures Common.Names(["runtime.wake"] + allow, id) <==> id == "runtime.wake" || Common.Names(allow, id) {
      NamesStep(["runtime.wake"] + allow, id);
    }
  }
}
