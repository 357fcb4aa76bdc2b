/** For which sessions the permission state can ever answer, and what becomes of an
    answer when other sessions are authorized or permissions are asked for again. */
module PermissionAnswers {
  import opened Common
  import opened Permissions
  import opened PermissionHistory
  import opened PermissionTheorems

  /** Ids as RecordRequest stores them. */
  predicate Plain(provider: string, session: string) {
    Trim(provider) == provider != "" && Trim(session) == session != ""
  }

  // ------------------------------------------------------------ what is on request

  /** `runtime.wake` as every stored request describes it. */
  predicate StandardWake(p: Permission) {
    && p.id == RUNTIME_WAKE && Trim(p.title) == p.title != ""
    && p.risk == "runtime" && p.delegation == BACKGROUND && p.tools == []
  }

  ghost predicate WakesAreStandard(permissions: seq<Permission>) {
    forall i :: 0 <= i < |permissions| && permissions[i].id == RUNTIME_WAKE ==> StandardWake(permissions[i])
  }

  ghost predicate RequestsArePlain(requests: seq<Request>) {
    forall i :: 0 <= i < |requests| ==>
      Plain(requests[i].provider, requests[i].session) && WakesAreStandard(requests[i].permissions)
  }

  lemma {:induction false} CheckedIsStandard(permissions: seq<Permission>, seen: set<string>)
    requires Checked(permissions, seen).Ok?
    ensures WakesAreStandard(Checked(permissions, seen).value)
  {
    if permissions != [] {
      var p := Normalized(permissions[0]);
      CheckedIsStandard(permissions[1..], seen + {p.id});
      TrimIdempotent(permissions[0].title);
      assert p.id == RUNTIME_WAKE ==> StandardWake(p);
    }
  }

  lemma AcceptedIsPlain(request: Request, now: string)
    requires Accepted(request, now).Ok?
    ensures var r := Accepted(request, now).value; Plain(r.provider, r.session) && WakesAreStandard(r.permissions)
  {
    CheckedIsStandard(request.permissions, {});
    TrimIdempotent(request.provider);
    TrimIdempotent(request.session);
  }

  lemma {:induction false} ReachableRequestsArePlain(hash: Hash, ops: seq<Op>)
    ensures RequestsArePlain(Replay(hash, ops).requests)
  {
    if ops != [] {
      var before, op := ops[..|ops| - 1], ops[|ops| - 1];
      ReachableRequestsArePlain(hash, before);
      ApplyRequests(Replay(hash, before), hash, op);
      if op.Ask? && Accepted(op.request, op.now).Ok? { AcceptedIsPlain(op.request, op.now); }
    }
  }

  /** Ids with outer white space are never authorized: requests are stored under
      trimmed ids, and authorizations look them up as they are given. */
  lemma UntrimmedIsNeverAnswered(hash: Hash, ops: seq<Op>, provider: string, session: string)
    requires !Plain(provider, session)
    ensures Answer(Replay(hash, ops), hash, provider, session) == Err(RequestPending)
  {
    ReachableRequestsArePlain(hash, ops);
  }

  // --------------------------------------------------------- a history that grants

  function WakeRequest(provider: string, session: string, wake: Permission): Request {
    Request(provider, session, LOCAL_REQUEST_ID, [wake], "")
  }

  /** Asking for `runtime.wake` alone, and granting it to the session for good. */
  function GrantingHistory(provider: string, session: string): seq<Op> {
    [Ask(WakeRequest(provider, session, LocalPermission(RUNTIME_WAKE, [])), "")]
    + [Allow(provider, session, "binding", [RUNTIME_WAKE], "")]
  }

  lemma WakeRequestIsAccepted(provider: string, session: string, wake: Permission)
    requires Plain(provider, session) && StandardWake(wake)
    ensures Accepted(WakeRequest(provider, session, wake), "") == Ok(WakeRequest(provider, session, wake))
  {
    assert Trim(RUNTIME_WAKE) == RUNTIME_WAKE && Trim(LOCAL_REQUEST_ID) == LOCAL_REQUEST_ID;
    assert Trim("runtime") == "runtime" && Trim(BACKGROUND) == BACKGROUND;
    assert Normalized(wake) == wake && Flaw(wake, {}) == None;
    assert [wake][1..] == [] && [wake] + [] == [wake];
    assert Checked([wake], {}) == Ok([wake]);
    assert Mentions([wake], RUNTIME_WAKE) by { assert [wake][0].id == RUNTIME_WAKE; }
  }

  lemma JustWake()
    ensures UniqueSorted([RUNTIME_WAKE]) == [RUNTIME_WAKE]
  {
    assert [RUNTIME_WAKE][1..] == [];
    assert Trim(RUNTIME_WAKE) == RUNTIME_WAKE;
  }

  lemma JustWakeDefined(wake: Permission)
    ensures Definitions([wake]) == map[wake.id := wake]
  {
    assert [wake][..0] == [];
  }

  lemma AskedForWake(hash: Hash, ask: Op, wake: Permission)
    requires ask.Ask? && Plain(ask.request.provider, ask.request.session) && StandardWake(wake)
    requires ask == Ask(WakeRequest(ask.request.provider, ask.request.session, wake), "")
    ensures Replay(hash, [ask]).requests == [ask.request] && Replay(hash, [ask]).grants == []
  {
    WakeRequestIsAccepted(ask.request.provider, ask.request.session, wake);
    ReplaySnoc(hash, [], ask);
    assert [] + [ask] == [ask];
    ApplyRequests(NewStore(), hash, ask);
    ApplyGrants(NewStore(), hash, ask);
  }

  lemma WakeIsGranted(store: Store, hash: Hash, request: Request, wake: Permission)
    requires store.requests == [request] && request.permissions == [wake] && StandardWake(wake)
    ensures var g := Granted(store, hash, request.provider, request.session, "binding", [RUNTIME_WAKE], "");
            && g.Ok? && g.value.provider == request.provider && g.value.session == request.session
            && g.value.scope == Binding && g.value.permissions == [RUNTIME_WAKE]
            && g.value.hashes == map[RUNTIME_WAKE := hash(wake)]
  {
    JustWake();
    JustWakeDefined(wake);
    assert [RUNTIME_WAKE][1..] == [];
    assert Ungrantable([RUNTIME_WAKE], Definitions(request.permissions)) == None;
  }

  lemma GrantedHistoryIsAnswered(hash: Hash, provider: string, session: string)
    requires Plain(provider, session)
    ensures Answer(Replay(hash, GrantingHistory(provider, session)), hash, provider, session)
            == Ok(Authorization(provider, session, Binding, [RUNTIME_WAKE], []))
  {
    var wake := LocalPermission(RUNTIME_WAKE, []);
    var request := WakeRequest(provider, session, wake);
    var ask, allow := Ask(request, ""), Allow(provider, session, "binding", [RUNTIME_WAKE], "");
    assert Trim(RUNTIME_WAKE) == RUNTIME_WAKE;
    AskedForWake(hash, ask, wake);
    var asked := Replay(hash, [ask]);
    WakeIsGranted(asked, hash, request, wake);
    ReplaySnoc(hash, [ask], allow);
    ApplyRequests(asked, hash, allow);
    ApplyGrants(asked, hash, allow);
    var g := Granted(asked, hash, provider, session, "binding", [RUNTIME_WAKE], "").value;
    assert PutIn([], g) == [g];
    OneGrantAnswers(Replay(hash, [ask] + [allow]), hash, g, request, wake);
  }

  lemma OneGrantAnswers(store: Store, hash: Hash, g: Grant, request: Request, wake: Permission)
    requires store.grants == [g] && g.scope == Binding && g.permissions == [RUNTIME_WAKE]
    requires GetRequest(store, g.provider, g.session) == Some(request)
    requires StandardWake(wake) && request.permissions == [wake] && g.hashes == map[RUNTIME_WAKE := hash(wake)]
    ensures Answer(store, hash, g.provider, g.session)
            == Ok(Authorization(g.provider, g.session, Binding, [RUNTIME_WAKE], []))
  {
    assert Applies(store.grants[0], g.provider, g.session);
    assert Select(store.grants, g.provider, g.session) == 0;
    JustWakeIsWorth(hash, g, request, wake);
  }

  lemma JustWakeIsWorth(hash: Hash, g: Grant, request: Request, wake: Permission)
    requires g.permissions == [RUNTIME_WAKE] && StandardWake(wake) && request.permissions == [wake]
    requires g.hashes == map[RUNTIME_WAKE := hash(wake)]
    ensures Worth(hash, g, request, g.provider, g.session)
            == Ok(Authorization(g.provider, g.session, g.scope, [RUNTIME_WAKE], []))
  {
    JustWakeDefined(wake);
    JustWake();
    var requested := Definitions(request.permissions);
    assert [RUNTIME_WAKE][1..] == [];
    assert CurrentIds(hash, g, requested, [RUNTIME_WAKE]) == [RUNTIME_WAKE];
    assert ToolsOf(requested, [RUNTIME_WAKE]) == [];
  }

  /** A session can come to be authorized exactly when its ids are trimmed and not empty. */
  lemma AnsweredIffPlain(hash: Hash, provider: string, session: string)
    ensures (exists ops :: Answer(Replay(hash, ops), hash, provider, session).Ok?) <==> Plain(provider, session)
  {
    if Plain(provider, session) {
      GrantedHistoryIsAnswered(hash, provider, session);
    } else {
      forall ops ensures Answer(Replay(hash, ops), hash, provider, session).Err? {
        UntrimmedIsNeverAnswered(hash, ops, provider, session);
      }
    }
  }

  // --------------------------------------------------- what an answer depends on

  /** The grant that counts still holds `runtime.wake`, whatever is on request. */
  predicate HoldsWake(store: Store, provider: string, session: string) {
    var best := Best(store.grants, provider, session);
    best.Some? && RUNTIME_WAKE in best.value.permissions
  }

  lemma BestIsWellMade(store: Store, provider: string, session: string)
    requires Orderly(store)
    ensures Best(store.grants, provider, session).Some? ==> WellMade(Best(store.grants, provider, session).value)
  {
  }

  lemma AnsweredHoldsWake(hash: Hash, ops: seq<Op>, provider: string, session: string)
    requires Answer(Replay(hash, ops), hash, provider, session).Ok?
    ensures HoldsWake(Replay(hash, ops), provider, session)
  {
    var store := Replay(hash, ops);
    ReachableStoresAreOrderly(hash, ops);
    AnswerIsOfBest(store, hash, provider, session);
    BestIsWellMade(store, provider, session);
    WorthIsCurrent(hash, Best(store.grants, provider, session).value, GetRequest(store, provider, session).value,
                   provider, session, RUNTIME_WAKE);
  }

  /** Authorizing a session uses up at most its own one-time grant. */
  lemma UseKeepsBest(store: Store, hash: Hash, op: Op, provider: string, session: string)
    requires op.Use? && Orderly(store)
    requires op.provider == provider && op.session == session ==> !Spends(store, hash, provider, session)
    ensures Best(Apply(store, hash, op).grants, provider, session) == Best(store.grants, provider, session)
  {
    UsedLookup(store, hash, op, GrantKey(provider, session, Once));
    UsedLookup(store, hash, op, GrantKey(provider, session, Binding));
    UsedLookup(store, hash, op, GrantKey(provider, "", Provider));
  }

  /** Asking and authorizing bring no grant back. */
  lemma WakeIsNotRegained(hash: Hash, ops: seq<Op>, op: Op, provider: string, session: string)
    requires (op.Ask? || op.Use?) && !HoldsWake(Replay(hash, ops), provider, session)
    ensures !HoldsWake(Replay(hash, ops + [op]), provider, session)
  {
    var store := Replay(hash, ops);
    ReachableStoresAreOrderly(hash, ops);
    ReplaySnoc(hash, ops, op);
    ApplyGrants(store, hash, op);
    if op.Use? {
      if Spends(store, hash, provider, session) { AnsweredHoldsWake(hash, ops, provider, session); }
      UseKeepsBest(store, hash, op, provider, session);
    }
  }

  /** The session is authorized for these ids, by a grant that is not used up. */
  predicate Standing(store: Store, hash: Hash, provider: string, session: string, ids: seq<string>) {
    var answer := Answer(store, hash, provider, session);
    answer.Ok? && answer.value.scope != Once && answer.value.permissions == ids
  }

  lemma UseKeepsStanding(hash: Hash, ops: seq<Op>, op: Op, provider: string, session: string, ids: seq<string>)
    requires op.Use? && Standing(Replay(hash, ops), hash, provider, session, ids)
    ensures Standing(Replay(hash, ops + [op]), hash, provider, session, ids)
  {
    var store := Replay(hash, ops);
    ReachableStoresAreOrderly(hash, ops);
    ReachableStoresAreOrderly(hash, ops + [op]);
    ReplaySnoc(hash, ops, op);
    UseKeepsBest(store, hash, op, provider, session);
    ApplyRequests(store, hash, op);
    AnswerIsOfBest(store, hash, provider, session);
    AnswerIsOfBest(Replay(hash, ops + [op]), hash, provider, session);
  }

  // ------------------------------------------------------- asking as it was granted

  lemma {:induction false} DefinitionIsListed(permissions: seq<Permission>, id: string) returns (i: nat)
    requires id in Definitions(permissions)
    ensures i < |permissions| && permissions[i] == Definitions(permissions)[id] && permissions[i].id == id
  {
    var rest, last := permissions[..|permissions| - 1], permissions[|permissions| - 1];
    if last.id == id { i := |permissions| - 1; } else { i := DefinitionIsListed(rest, id); }
  }

  lemma DefinedWakeIsStandard(hash: Hash, ops: seq<Op>, provider: string, session: string)
    requires DefinitionIn(Replay(hash, ops), provider, session, RUNTIME_WAKE).Some?
    ensures StandardWake(DefinitionIn(Replay(hash, ops), provider, session, RUNTIME_WAKE).value)
  {
    ReachableRequestsArePlain(hash, ops);
    var requests := Replay(hash, ops).requests;
    var i := DefinitionIsListed(requests[FindRequest(requests, provider, session)].permissions, RUNTIME_WAKE);
  }

  /** The definition of `runtime.wake` that the grant which counts approved. */
  lemma ApprovedWake(hash: Hash, ops: seq<Op>, provider: string, session: string) returns (wake: Permission)
    requires HoldsWake(Replay(hash, ops), provider, session)
    ensures StandardWake(wake)
    ensures var g := Best(Replay(hash, ops).grants, provider, session).value;
            RUNTIME_WAKE in g.hashes && g.hashes[RUNTIME_WAKE] == hash(wake)
  {
    var grants := Replay(hash, ops).grants;
    var g := Best(grants, provider, session).value;
    ReachableStoresAreOrderly(hash, ops);
    BestIsWellMade(Replay(hash, ops), provider, session);
    GrantsMatchHistory(hash, ops, KeyOf(g), RUNTIME_WAKE);
    var i, p := ApprovalHasWitness(hash, ops, KeyOf(g), RUNTIME_WAKE);
    DefinedWakeIsStandard(hash, ops[..i], KeyOf(g).provider, ops[i].session);
    wake := p;
  }

  /** As long as the grant holds `runtime.wake`, asking for that again as it was
      approved makes the session authorized. */
  lemma WakeCanBeAskedFor(hash: Hash, ops: seq<Op>, provider: string, session: string) returns (request: Request)
    requires HoldsWake(Replay(hash, ops), provider, session) && Plain(provider, session)
    ensures Accepted(request, "").Ok?
    ensures Answer(Replay(hash, ops + [Ask(request, "")]), hash, provider, session).Ok?
  {
    var wake := ApprovedWake(hash, ops, provider, session);
    request := WakeRequest(provider, session, wake);
    WakeRequestIsAccepted(provider, session, wake);
    var op, store := Ask(request, ""), Replay(hash, ops);
    ReplaySnoc(hash, ops, op);
    ApplyGrants(store, hash, op);
    ApplyRequests(store, hash, op);
    PutIsFound(store.requests, request);
    ReachableStoresAreOrderly(hash, ops + [op]);
    AnswerIsOfBest(Replay(hash, ops + [op]), hash, provider, session);
    WakeIsWorth(hash, Best(store.grants, provider, session).value, request, wake);
  }

  lemma PutIsFound(requests: seq<Request>, r: Request)
    ensures var after := PutRequest(requests, r);
            var i := FindRequest(after, r.provider, r.session);
            i < |after| && after[i] == r
  {
    var after, i := PutRequest(requests, r), FindRequest(requests, r.provider, r.session);
    assert after[i] == r;
    assert forall j :: 0 <= j < i ==> after[j] == requests[j];
  }

  lemma WakeIsWorth(hash: Hash, g: Grant, request: Request, wake: Permission)
    requires StandardWake(wake) && request.permissions == [wake]
    requires RUNTIME_WAKE in g.permissions && RUNTIME_WAKE in g.hashes && g.hashes[RUNTIME_WAKE] == hash(wake)
    ensures Worth(hash, g, request, request.provider, request.session).Ok?
  {
    JustWakeDefined(wake);
    var ids := CurrentIds(hash, g, Definitions(request.permissions), g.permissions);
    assert RUNTIME_WAKE in ids;
    var i :| 0 <= i < |ids| && ids[i] == RUNTIME_WAKE;
    assert Trim(ids[i]) == RUNTIME_WAKE;
    assert Names(ids, RUNTIME_WAKE);
  }
}
