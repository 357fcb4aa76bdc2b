/** What a successful authorization proves about the past, and what a
    revocation proves about the future. */
module PermissionTheorems {
  import opened Common
  import opened Permissions
  import opened PermissionHistory

  /** The definition of `id` in the request of this session, if it has one. */
  function DefinitionIn(store: Store, provider: string, session: string, id: string): Option<Permission> {
    match GetRequest(store, provider, session)
    case None => None
    case Some(request) =>
      var requested := Definitions(request.permissions);
      if id in requested then Some(requested[id]) else None
  }

  /** Operation `i` asked for the scope of this key by name and made a grant with the
      key that names `id`; it approved the definition `p` of the id, and no later
      operation ended that approval. */
  ghost predicate LiveApproval(hash: Hash, ops: seq<Op>, i: nat, key: GrantKey, id: string, p: Permission) {
    && i < |ops|
    && MakesUnder(hash, ops[..i], ops[i], key) && Called(key.scope, ops[i].scope)
    && id in UniqueSorted(ops[i].ids)
    && DefinitionIn(Replay(hash, ops[..i]), key.provider, ops[i].session, id) == Some(p)
    && forall j :: i < j < |ops| ==> !Ends(hash, ops[..j], ops[j], key, id)
  }

  /** A grant approves only definitions that may be delegated. */
  lemma MadeGrantApproves(hash: Hash, before: seq<Op>, op: Op, id: string)
    requires Makes(hash, before, op).Some? && HashFor(Makes(hash, before, op), id).Some?
    ensures id in UniqueSorted(op.ids)
    ensures var p := DefinitionIn(Replay(hash, before), op.provider, op.session, id);
            && p.Some?
            && HashFor(Makes(hash, before, op), id) == Some(hash(p.value))
            && p.value.delegation != INTERACTIVE_ONLY
    ensures KeyOf(Makes(hash, before, op).value).provider == op.provider
  {
    var request := GetRequest(Replay(hash, before), op.provider, op.session).value;
    UngrantableNone(UniqueSorted(op.ids), Definitions(request.permissions));
  }

  lemma ApprovalStays(hash: Hash, before: seq<Op>, op: Op, i: nat, key: GrantKey, id: string, p: Permission)
    requires LiveApproval(hash, before, i, key, id, p) && !Ends(hash, before, op, key, id)
    ensures LiveApproval(hash, before + [op], i, key, id, p)
  {
    var ops := before + [op];
    assert ops[..|before|] == before;
    assert before[..i] == ops[..i] && before[i] == ops[i];
    forall j | i < j < |ops| ensures !Ends(hash, ops[..j], ops[j], key, id) {
      if j < |before| { assert before[..j] == ops[..j] && before[j] == ops[j]; }
    }
  }

  lemma ApprovalStarts(hash: Hash, before: seq<Op>, op: Op, key: GrantKey, id: string) returns (p: Permission)
    requires MakesUnder(hash, before, op, key) && HashFor(Makes(hash, before, op), id).Some?
    ensures LiveApproval(hash, before + [op], |before|, key, id, p)
    ensures HashFor(Makes(hash, before, op), id) == Some(hash(p)) && p.delegation != INTERACTIVE_ONLY
  {
    MadeGrantApproves(hash, before, op, id);
    assert (before + [op])[..|before|] == before;
    p := DefinitionIn(Replay(hash, before), op.provider, op.session, id).value;
  }

  lemma ApprovedStep(hash: Hash, ops: seq<Op>, key: GrantKey, id: string)
    requires Approved(hash, ops, key, id).Some?
    ensures ops != []
    ensures var before, op := ops[..|ops| - 1], ops[|ops| - 1];
            if MakesUnder(hash, before, op, key)
            then Approved(hash, ops, key, id) == HashFor(Makes(hash, before, op), id)
            else !Ends(hash, before, op, key, id) && Approved(hash, ops, key, id) == Approved(hash, before, key, id)
  {
  }

  lemma {:induction false} ApprovalHasWitness(hash: Hash, ops: seq<Op>, key: GrantKey, id: string)
    returns (i: nat, p: Permission)
    requires Approved(hash, ops, key, id).Some?
    ensures LiveApproval(hash, ops, i, key, id, p)
    ensures Approved(hash, ops, key, id) == Some(hash(p)) && p.delegation != INTERACTIVE_ONLY
  {
    var before, op := ops[..|ops| - 1], ops[|ops| - 1];
    assert ops == before + [op];
    ApprovedStep(hash, ops, key, id);
    if MakesUnder(hash, before, op, key) {
      i := |before|;
      p := ApprovalStarts(hash, before, op, key, id);
    } else {
      i, p := ApprovalHasWitness(hash, before, key, id);
      ApprovalStays(hash, before, op, i, key, id, p);
    }
  }

  /** An authorized id is approved in the selected grant, under the hash of the
      definition that is requested now. */
  lemma AuthorizedIsApproved(hash: Hash, ops: seq<Op>, provider: string, session: string, id: string)
    ensures var answer := Answer(Replay(hash, ops), hash, provider, session);
            answer.Ok? && id in answer.value.permissions ==>
              var now := DefinitionIn(Replay(hash, ops), provider, session, id);
              && now.Some?
              && Approved(hash, ops, ScopeKey(provider, session, answer.value.scope), id) == Some(hash(now.value))
  {
    var store := Replay(hash, ops);
    var answer := Answer(store, hash, provider, session);
    if answer.Ok? && id in answer.value.permissions {
      ReachableStoresAreOrderly(hash, ops);
      var i := Select(store.grants, provider, session);
      LookupIs(store.grants, i);
      GrantsMatchHistory(hash, ops, KeyOf(store.grants[i]), id);
      WorthIsCurrent(hash, store.grants[i], GetRequest(store, provider, session).value, provider, session, id);
    }
  }

  lemma WorthIsCurrent(hash: Hash, g: Grant, request: Request, provider: string, session: string, id: string)
    requires WellMade(g) && Worth(hash, g, request, provider, session).Ok?
    requires id in Worth(hash, g, request, provider, session).value.permissions
    ensures id in g.permissions && Current(hash, g, Definitions(request.permissions), id)
  {
    var ids := CurrentIds(hash, g, Definitions(request.permissions), g.permissions);
    assert Names(ids, id);
    var i :| 0 <= i < |ids| && Trim(ids[i]) == id;
    assert ids[i] in g.permissions;
  }

  lemma {:induction false} ToolHasOwner(requested: map<string, Permission>, ids: seq<string>, tool: string)
    returns (id: string)
    requires forall i :: i in ids ==> i in requested
    requires tool in ToolsOf(requested, ids)
    ensures id in ids && tool in requested[id].tools
  {
    if tool in requested[ids[0]].tools { id := ids[0]; } else { id := ToolHasOwner(requested, ids[1..], tool); }
  }

  /** The id is backed: its definition as now requested may be delegated, and a
      grant of this scope approved that very definition and still stands. */
  ghost predicate Backed(hash: Hash, ops: seq<Op>, provider: string, session: string, scope: Scope, id: string) {
    var now := DefinitionIn(Replay(hash, ops), provider, session, id);
    && now.Some?
    && now.value.delegation != INTERACTIVE_ONLY
    && exists i :: LiveApproval(hash, ops, i, ScopeKey(provider, session, scope), id, now.value)
  }

  ghost predicate AllBacked(hash: Hash, ops: seq<Op>, provider: string, session: string, scope: Scope,
                            ids: seq<string>)
  {
    forall id :: id in ids ==> Backed(hash, ops, provider, session, scope, id)
  }

  /** Authorization soundness. Whatever Authorize grants, on any history:
      `runtime.wake` is among it, and each id was named by an applicable grant
      of the same scope that has not since been replaced, consumed or revoked
      of it, and that approved the very definition now requested, which is not
      interactive-only. */
  lemma AuthorizationIsSound(hash: Hash, ops: seq<Op>, provider: string, session: string)
    requires Injective(hash)
    ensures var answer := Answer(Replay(hash, ops), hash, provider, session);
            answer.Ok? ==>
              && RUNTIME_WAKE in answer.value.permissions
              && AllBacked(hash, ops, provider, session, answer.value.scope, answer.value.permissions)
  {
    var answer := Answer(Replay(hash, ops), hash, provider, session);
    if answer.Ok? {
      forall id | id in answer.value.permissions ensures Backed(hash, ops, provider, session, answer.value.scope, id) {
        AuthorizedIsApproved(hash, ops, provider, session, id);
        ApprovedIsBacked(hash, ops, provider, session, answer.value.scope, id);
      }
    }
  }

  lemma ApprovedIsBacked(hash: Hash, ops: seq<Op>, provider: string, session: string, scope: Scope, id: string)
    requires Injective(hash)
    requires var now := DefinitionIn(Replay(hash, ops), provider, session, id);
             now.Some? && Approved(hash, ops, ScopeKey(provider, session, scope), id) == Some(hash(now.value))
    ensures Backed(hash, ops, provider, session, scope, id)
  {
    var i, p := ApprovalHasWitness(hash, ops, ScopeKey(provider, session, scope), id);
    assert DefinitionIn(Replay(hash, ops), provider, session, id) == Some(p);
  }

  /** The tool is one of the requested definition of this id. */
  predicate IsToolOf(store: Store, provider: string, session: string, id: string, tool: string) {
    var now := DefinitionIn(store, provider, session, id);
    now.Some? && tool in now.value.tools
  }

  /** Every tool Authorize returns is a tool of a definition it authorizes. */
  lemma ToolsAreApproved(hash: Hash, ops: seq<Op>, provider: string, session: string)
    ensures var answer := Answer(Replay(hash, ops), hash, provider, session);
            answer.Ok? ==>
              forall tool :: tool in answer.value.tools ==>
                exists id :: id in answer.value.permissions && IsToolOf(Replay(hash, ops), provider, session, id, tool)
  {
    var store := Replay(hash, ops);
    var answer := Answer(store, hash, provider, session);
    if answer.Ok? {
      ReachableStoresAreOrderly(hash, ops);
      var request := GetRequest(store, provider, session).value;
      forall tool | tool in answer.value.tools
        ensures exists id :: id in answer.value.permissions && IsToolOf(store, provider, session, id, tool)
      {
        var g := store.grants[Select(store.grants, provider, session)];
        var id := WorthTool(hash, g, request, provider, session, tool);
        assert IsToolOf(store, provider, session, id, tool);
      }
    }
  }

  lemma DefinitionsAreMembers(permissions: seq<Permission>, id: string)
    ensures id in Definitions(permissions) ==>
            exists i :: 0 <= i < |permissions| && permissions[i] == Definitions(permissions)[id]
  {
    if permissions != [] { DefinitionsAreMembers(permissions[..|permissions| - 1], id); }
  }

  lemma WorthTool(hash: Hash, g: Grant, request: Request, provider: string, session: string, tool: string)
    returns (id: string)
    requires WellMade(g) && TrimmedTools(request.permissions)
    requires var worth := Worth(hash, g, request, provider, session); worth.Ok? && tool in worth.value.tools
    ensures id in Worth(hash, g, request, provider, session).value.permissions
    ensures var requested := Definitions(request.permissions); id in requested && tool in requested[id].tools
  {
    var requested := Definitions(request.permissions);
    var ids := CurrentIds(hash, g, requested, g.permissions);
    var raw := NamedBy(ToolsOf(requested, ids), tool);
    id := ToolHasOwner(requested, ids, raw);
    DefinitionsAreMembers(request.permissions, id);
    var m :| 0 <= m < |g.permissions| && g.permissions[m] == id;
    NamesItself(ids, id);
  }

  lemma NamedBy(values: seq<string>, y: string) returns (raw: string)
    requires y in UniqueSorted(values)
    ensures raw in values && Trim(raw) == y
  {
    assert Names(values, y);
    var i :| 0 <= i < |values| && Trim(values[i]) == y;
    raw := values[i];
  }

  lemma NamesItself(values: seq<string>, y: string)
    requires y in values && Trim(y) == y != ""
    ensures y in UniqueSorted(values)
  {
    var i :| 0 <= i < |values| && values[i] == y;
    assert Names(values, y);
  }

  // -------------------------------------------------------------- one-time grants

  /** Successful consuming authorizations with scope once. */
  function OnceUses(hash: Hash, ops: seq<Op>, provider: string, session: string): nat {
    if ops == [] then 0
    else
      var before, op := ops[..|ops| - 1], ops[|ops| - 1];
      OnceUses(hash, before, provider, session)
      + if Consumes(hash, before, op, GrantKey(provider, session, Once)) then 1 else 0
  }

  /** A grant for this session that was asked for by the text `once`, and made. */
  predicate MakesOnce(hash: Hash, before: seq<Op>, op: Op, provider: string, session: string) {
    && op.Allow? && op.provider == provider && op.session == session && op.scope == "once"
    && Makes(hash, before, op).Some?
  }

  /** Those are the operations that store a one-time grant. */
  lemma MakesOnceIff(hash: Hash, before: seq<Op>, op: Op, provider: string, session: string)
    ensures MakesOnce(hash, before, op, provider, session)
            <==> MakesUnder(hash, before, op, GrantKey(provider, session, Once))
  {
  }

  /** Grants made under the text `once`. */
  function OnceGrants(hash: Hash, ops: seq<Op>, provider: string, session: string): nat {
    if ops == [] then 0
    else
      var before, op := ops[..|ops| - 1], ops[|ops| - 1];
      OnceGrants(hash, before, provider, session)
      + if MakesOnce(hash, before, op, provider, session) then 1 else 0
  }

  function Held(grants: seq<Grant>, key: GrantKey): nat {
    if Lookup(grants, key).Some? then 1 else 0
  }

  lemma StepHolds(hash: Hash, before: seq<Op>, op: Op, key: GrantKey)
    requires key.scope == Once
    ensures var store := Replay(hash, before);
            Held(Apply(store, hash, op).grants, key) + (if Consumes(hash, before, op, key) then 1 else 0)
            <= Held(store.grants, key) + if MakesUnder(hash, before, op, key) then 1 else 0
  {
    var store := Replay(hash, before);
    ReachableStoresAreOrderly(hash, before);
    ApplyGrants(store, hash, op);
    match op
    case Ask(_, _) =>
    case Allow(_, _, _, _, _) => AllowHolds(hash, before, op, key);
    case Use(_, _, _, _) => UseHolds(store, hash, op, key);
    case Withdraw(p, s, scope, ids, _) => RevokedLookup(store.grants, p, s, scope, UniqueSorted(ids), key);
  }

  lemma AllowHolds(hash: Hash, before: seq<Op>, op: Op, key: GrantKey)
    requires op.Allow? && UniqueGrants(Replay(hash, before).grants)
    ensures var store := Replay(hash, before);
            Held(Apply(store, hash, op).grants, key)
            <= Held(store.grants, key) + if MakesUnder(hash, before, op, key) then 1 else 0
  {
    var store, made := Replay(hash, before), Makes(hash, before, op);
    ApplyGrants(store, hash, op);
    if made.Some? { PutInLookup(store.grants, made.value, key); }
  }

  lemma UseHolds(store: Store, hash: Hash, op: Op, key: GrantKey)
    requires op.Use? && UniqueGrants(store.grants)
    ensures var spent := op.consume && Spends(store, hash, op.provider, op.session);
            Held(Apply(store, hash, op).grants, key)
            + (if spent && key == GrantKey(op.provider, op.session, Once) then 1 else 0)
            <= Held(store.grants, key)
  {
    UsedLookup(store, hash, op, key);
    if Spends(store, hash, op.provider, op.session) {
      LookupIs(store.grants, Select(store.grants, op.provider, op.session));
    }
  }

  /** On every history, one-time grants are used at most once each: the uses
      and the grant still held never exceed the grants made. */
  lemma {:induction false} OnceGrantsAreUsedOnce(hash: Hash, ops: seq<Op>, provider: string, session: string)
    ensures OnceUses(hash, ops, provider, session)
            + Held(Replay(hash, ops).grants, GrantKey(provider, session, Once))
            <= OnceGrants(hash, ops, provider, session)
  {
    if ops != [] {
      var before, op := ops[..|ops| - 1], ops[|ops| - 1];
      OnceGrantsAreUsedOnce(hash, before, provider, session);
      StepHolds(hash, before, op, GrantKey(provider, session, Once));
      MakesOnceIff(hash, before, op, provider, session);
    }
  }

  // ------------------------------------------------------------------ revocation

  /** No operation of `ops`, from `n` on, grants `id` where it applies to the session. */
  ghost predicate NotGrantedSince(hash: Hash, ops: seq<Op>, n: nat, provider: string, session: string, id: string) {
    forall j :: n <= j < |ops| ==> !GrantsIt(hash, ops[..j], ops[j], provider, session, id)
  }

  ghost predicate GrantsIt(hash: Hash, before: seq<Op>, op: Op, provider: string, session: string, id: string) {
    var made := Makes(hash, before, op);
    made.Some? && Applies(made.value, provider, session) && id in made.value.permissions
  }

  lemma ApprovedOnlyByGrants(hash: Hash, before: seq<Op>, op: Op, key: GrantKey, id: string, provider: string,
                             session: string)
    requires AppliesTo(key, provider, session) && !GrantsIt(hash, before, op, provider, session, id)
    requires Takes(op, key, id) || Approved(hash, before, key, id) == None
    ensures Approved(hash, before + [op], key, id) == None
  {
    assert (before + [op])[..|before|] == before;
  }

  lemma {:induction false} RevokedIsNotApproved(hash: Hash, ops: seq<Op>, n: nat, key: GrantKey, id: string,
                                                provider: string, session: string)
    requires n < |ops| && Takes(ops[n], key, id) && AppliesTo(key, provider, session)
    requires NotGrantedSince(hash, ops, n + 1, provider, session, id)
    ensures Approved(hash, ops, key, id) == None
    decreases |ops|
  {
    var before, op := ops[..|ops| - 1], ops[|ops| - 1];
    assert ops == before + [op];
    if n < |before| {
      forall j | n + 1 <= j < |before| ensures !GrantsIt(hash, before[..j], before[j], provider, session, id) {
        assert before[..j] == ops[..j] && before[j] == ops[j];
      }
      RevokedIsNotApproved(hash, before, n, key, id, provider, session);
    }
    ApprovedOnlyByGrants(hash, before, op, key, id, provider, session);
  }

  /** After a revocation of `id` that names no scope, Authorize does not return
      `id` for that session until a later grant names it again. */
  lemma RevokedUntilGrantedAgain(hash: Hash, ops: seq<Op>, n: nat, id: string)
    requires n < |ops| && ops[n].Withdraw? && ops[n].scope == ""
    requires UniqueSorted(ops[n].ids) == [] || id in UniqueSorted(ops[n].ids)
    requires NotGrantedSince(hash, ops, n + 1, ops[n].provider, ops[n].session, id)
    ensures var answer := Answer(Replay(hash, ops), hash, ops[n].provider, ops[n].session);
            answer.Ok? ==> id !in answer.value.permissions
  {
    var provider, session := ops[n].provider, ops[n].session;
    var answer := Answer(Replay(hash, ops), hash, provider, session);
    if answer.Ok? && id in answer.value.permissions {
      AuthorizedIsApproved(hash, ops, provider, session, id);
      RevokedIsNotApproved(hash, ops, n, ScopeKey(provider, session, answer.value.scope), id, provider, session);
    }
  }

  lemma {:induction false} RevokedSameIffNothingLost(grants: seq<Grant>, p: string, s: string, scope: string,
                                                     ids: seq<string>)
    requires forall i :: 0 <= i < |grants| ==> WellMade(grants[i])
    ensures |Revoked(grants, p, s, scope, ids)| <= |grants|
    ensures Revoked(grants, p, s, scope, ids) != grants <==> Changes(grants, p, s, scope, ids)
  {
    if grants != [] {
      var g, rest := grants[0], grants[1..];
      RevokedSameIffNothingLost(rest, p, s, scope, ids);
      OneSameIffNothingLost(g, p, s, scope, ids);
      ChangesCons(g, rest, p, s, scope, ids);
      assert grants == [g] + rest;
      JoinedSame(RevokedOne(g, p, s, scope, ids), Revoked(rest, p, s, scope, ids), g, rest);
    }
  }

  /** Shortened lists make up the whole again only if nothing was taken. */
  lemma JoinedSame(one: seq<Grant>, more: seq<Grant>, g: Grant, rest: seq<Grant>)
    requires |one| <= 1 && |more| <= |rest|
    ensures one + more == [g] + rest <==> one == [g] && more == rest
  {
    if one != [] { assert (one + more)[0] == one[0] && (one + more)[1..] == more; }
    assert ([g] + rest)[0] == g && ([g] + rest)[1..] == rest;
  }

  lemma OneSameIffNothingLost(g: Grant, p: string, s: string, scope: string, ids: seq<string>)
    requires WellMade(g)
    ensures RevokedOne(g, p, s, scope, ids) != [g] <==> Loses(g, p, s, scope, ids)
  {
    if Hits(g.permissions, ids) == {} {
      NothingToRemove(g.permissions, ids);
      assert g.hashes - {} == g.hashes;
    } else {
      var id :| id in Hits(g.permissions, ids);
      WithoutMembers(g.permissions, ids, id);
    }
  }

  lemma {:induction false} NothingToRemove(ids: seq<string>, removed: seq<string>)
    requires Hits(ids, removed) == {}
    ensures Without(ids, removed) == ids
  {
    if ids != [] {
      forall id ensures id !in Hits(ids[1..], removed) {
        assert id in Hits(ids[1..], removed) ==> id in Hits(ids, removed);
      }
      NothingToRemove(ids[1..], removed);
      assert ids[0] in Hits(ids, removed) <==> ids[0] in removed;
      assert ids == [ids[0]] + ids[1..];
    }
  }

  /** On every reachable store, Revoke reports a change exactly when the grants differ. */
  lemma RevokeReportsChange(hash: Hash, ops: seq<Op>, p: string, s: string, scope: string, ids: seq<string>,
                            now: string)
    ensures var (after, changed) := Revoke(Replay(hash, ops), p, s, scope, ids, now);
            changed <==> after.grants != Replay(hash, ops).grants
  {
    ReachableStoresAreOrderly(hash, ops);
    RevokedSameIffNothingLost(Replay(hash, ops).grants, p, s, scope, UniqueSorted(ids));
  }
}
