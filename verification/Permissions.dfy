/** The permission store as values: what each operation of
    internal/permissions/store.go computes. The definition hash is a parameter. */
module Permissions {
  import opened Common

  const RUNTIME_WAKE := "runtime.wake"
  const BACKGROUND := "background"
  const INTERACTIVE_ONLY := "interactive-only"
  const LOCAL_REQUEST_ID := "local"
  const MAX_AUDIT: nat := 1000

  datatype Permission = Permission(
    id: string,
    title: string,
    description: string,
    risk: string,
    delegation: string,
    tools: seq<string>)

  datatype Request = Request(
    provider: string,
    session: string,
    requestId: string,
    permissions: seq<Permission>,
    requestedAt: string)

  datatype Scope = Once | Binding | Provider

  datatype Grant = Grant(
    provider: string,
    session: string,
    sourceSession: string,
    requestId: string,
    scope: Scope,
    permissions: seq<string>,
    hashes: map<string, string>,
    grantedAt: string)

  datatype AuditEntry = AuditEntry(
    timestamp: string,
    action: string,
    provider: string,
    session: string,
    scope: string,
    permissions: seq<string>)

  datatype Store = Store(requests: seq<Request>, grants: seq<Grant>, audit: seq<AuditEntry>)

  datatype Authorization = Authorization(
    provider: string,
    session: string,
    scope: Scope,
    permissions: seq<string>,
    tools: seq<string>)

  datatype Refusal =
    | MissingIds | NoPermissions | MissingName | DuplicatePermission | UnsupportedRisk
    | UnsupportedDelegation | InvalidTool | WakeMapsTools | WakeMisdescribed | WakeNotRequested
    | RequestPending | UnsupportedScope | NothingAllowed | NotRequested | InteractiveOnly
    | WakeNotAllowed | NotGranted | WakeMissingOrChanged

  /** permissionHash: a function of the whole definition. */
  type Hash = Permission -> string

  ghost predicate Injective(hash: Hash) {
    forall a, b :: hash(a) == hash(b) ==> a == b
  }

  function NewStore(): Store {
    Store([], [], [])
  }

  function ScopeName(scope: Scope): string {
    match scope case Once => "once" case Binding => "binding" case Provider => "provider"
  }

  // ------------------------------------------------------------------- audit

  function Audited(store: Store, entry: AuditEntry): Store {
    var audit := store.audit + [entry];
    store.(audit := if |audit| > MAX_AUDIT then audit[|audit| - MAX_AUDIT..] else audit)
  }

  // ---------------------------------------------------------------- requests

  function Normalized(p: Permission): Permission {
    Permission(Trim(p.id), Trim(p.title), p.description, Trim(p.risk), Trim(p.delegation), UniqueSorted(p.tools))
  }

  predicate HasLineBreak(s: string) {
    '\r' in s || '\n' in s
  }

  /** The first check that a normalized permission fails. */
  function Flaw(p: Permission, seen: set<string>): Option<Refusal> {
    if p.id == "" || p.title == "" then Some(MissingName)
    else if p.id in seen then Some(DuplicatePermission)
    else if p.risk !in {"runtime", "read", "write", "sensitive"} then Some(UnsupportedRisk)
    else if p.delegation !in {BACKGROUND, INTERACTIVE_ONLY} then Some(UnsupportedDelegation)
    else if exists i :: 0 <= i < |p.tools| && HasLineBreak(p.tools[i]) then Some(InvalidTool)
    else if p.id == RUNTIME_WAKE && p.tools != [] then Some(WakeMapsTools)
    else if p.id == RUNTIME_WAKE && (p.risk != "runtime" || p.delegation != BACKGROUND) then Some(WakeMisdescribed)
    else None
  }

  function Checked(permissions: seq<Permission>, seen: set<string>): Result<seq<Permission>, Refusal> {
    if permissions == [] then Ok([])
    else
      var p := Normalized(permissions[0]);
      match Flaw(p, seen)
      case Some(refusal) => Err(refusal)
      case None =>
        match Checked(permissions[1..], seen + {p.id})
        case Err(refusal) => Err(refusal)
        case Ok(rest) => Ok([p] + rest)
  }

  predicate Mentions(permissions: seq<Permission>, id: string) {
    exists i :: 0 <= i < |permissions| && permissions[i].id == id
  }

  function FindRequest(requests: seq<Request>, provider: string, session: string): (i: nat)
    ensures i <= |requests|
    ensures i < |requests| ==> requests[i].provider == provider && requests[i].session == session
    ensures forall j :: 0 <= j < i ==> !(requests[j].provider == provider && requests[j].session == session)
  {
    if requests == [] || (requests[0].provider == provider && requests[0].session == session) then 0
    else 1 + FindRequest(requests[1..], provider, session)
  }

  function GetRequest(store: Store, provider: string, session: string): Option<Request> {
    var i := FindRequest(store.requests, provider, session);
    if i < |store.requests| then Some(store.requests[i]) else None
  }

  /** The request that RecordRequest stores, or why it refuses. */
  function Accepted(request: Request, now: string): Result<Request, Refusal> {
    var provider, session, requestId := Trim(request.provider), Trim(request.session), Trim(request.requestId);
    if provider == "" || session == "" || requestId == "" then Err(MissingIds)
    else if request.permissions == [] then Err(NoPermissions)
    else match Checked(request.permissions, {})
      case Err(refusal) => Err(refusal)
      case Ok(permissions) =>
        if !Mentions(permissions, RUNTIME_WAKE) then Err(WakeNotRequested)
        else Ok(Request(provider, session, requestId, permissions, now))
  }

  function StoreRequest(store: Store, r: Request, now: string): Store {
    var i := FindRequest(store.requests, r.provider, r.session);
    if i < |store.requests| then
      Audited(store.(requests := store.requests[i := r]),
              AuditEntry(now, "request.updated", r.provider, r.session, "", []))
    else
      Audited(store.(requests := store.requests + [r]),
              AuditEntry(now, "request.created", r.provider, r.session, "", []))
  }

  function RecordRequest(store: Store, request: Request, now: string): Result<(Store, Request), Refusal> {
    match Accepted(request, now)
    case Err(refusal) => Err(refusal)
    case Ok(r) => Ok((StoreRequest(store, r, now), r))
  }

  function LocalPermission(id: string, tools: seq<string>): Permission {
    if id == RUNTIME_WAKE then Permission(id, id, "", "runtime", BACKGROUND, [])
    else Permission(id, id, "", "read", BACKGROUND, tools)
  }

  /** The request AWP writes itself when the provider never sends one. */
  function LocalRequest(provider: string, session: string, allow: seq<string>, tools: seq<string>): Request {
    var ids := UniqueSorted([RUNTIME_WAKE] + allow);
    Request(provider, session, LOCAL_REQUEST_ID,
            seq(|ids|, i requires 0 <= i < |ids| => LocalPermission(ids[i], tools)), "")
  }

  // ------------------------------------------------------------------ grants

  datatype GrantKey = GrantKey(provider: string, session: string, scope: Scope)

  function KeyOf(g: Grant): GrantKey {
    GrantKey(g.provider, g.session, g.scope)
  }

  function FindGrant(grants: seq<Grant>, key: GrantKey): (i: nat)
    ensures i <= |grants|
    ensures i < |grants| ==> KeyOf(grants[i]) == key
    ensures forall j :: 0 <= j < i ==> KeyOf(grants[j]) != key
  {
    if grants == [] || KeyOf(grants[0]) == key then 0 else 1 + FindGrant(grants[1..], key)
  }

  /** The definitions of a request by id; a later one replaces an earlier one. */
  function Definitions(permissions: seq<Permission>): map<string, Permission> {
    if permissions == [] then map[]
    else
      var last := permissions[|permissions| - 1];
      Definitions(permissions[..|permissions| - 1])[last.id := last]
  }

  /** Why one of the ids cannot be granted, if one cannot. */
  function Ungrantable(ids: seq<string>, requested: map<string, Permission>): Option<Refusal> {
    if ids == [] then None
    else if ids[0] !in requested then Some(NotRequested)
    else if requested[ids[0]].delegation == INTERACTIVE_ONLY then Some(InteractiveOnly)
    else Ungrantable(ids[1..], requested)
  }

  function ParseScope(scope: string): Option<Scope> {
    if scope == "" || scope == "binding" then Some(Binding)
    else if scope == "once" then Some(Once)
    else if scope == "provider" then Some(Provider)
    else None
  }

  lemma UngrantableNone(ids: seq<string>, requested: map<string, Permission>)
    requires Ungrantable(ids, requested) == None
    ensures forall i :: 0 <= i < |ids| ==> ids[i] in requested && requested[ids[i]].delegation != INTERACTIVE_ONLY
  {
  }

  function Approve(hash: Hash, request: Request, provider: string, session: string, scope: Scope, ids: seq<string>,
                   now: string)
    : (g: Grant)
    requires Ungrantable(ids, Definitions(request.permissions)) == None
    ensures KeyOf(g) == GrantKey(provider, if scope == Provider then "" else session, scope)
    ensures g.permissions == ids && g.hashes.Keys == set i | i in ids
    ensures forall i :: i in ids ==>
              i in Definitions(request.permissions) && g.hashes[i] == hash(Definitions(request.permissions)[i])
  {
    UngrantableNone(ids, Definitions(request.permissions));
    var requested := Definitions(request.permissions);
    Grant(provider, if scope == Provider then "" else session, session, request.requestId, scope, ids,
          map i | i in ids :: hash(requested[i]), now)
  }

  /** The grant that GrantPermissions makes, or why it refuses. */
  function Granted(store: Store, hash: Hash, provider: string, session: string, scope: string, allowed: seq<string>,
                   now: string)
    : Result<Grant, Refusal>
  {
    match GetRequest(store, provider, session)
    case None => Err(RequestPending)
    case Some(request) =>
      match ParseScope(scope)
      case None => Err(UnsupportedScope)
      case Some(kind) =>
        var ids := UniqueSorted(allowed);
        if ids == [] then Err(NothingAllowed)
        else match Ungrantable(ids, Definitions(request.permissions))
          case Some(refusal) => Err(refusal)
          case None =>
            if RUNTIME_WAKE !in ids then Err(WakeNotAllowed)
            else Ok(Approve(hash, request, provider, session, kind, ids, now))
  }

  function PutGrant(store: Store, g: Grant, session: string, now: string): Store {
    var i := FindGrant(store.grants, KeyOf(g));
    if i < |store.grants| then
      Audited(store.(grants := store.grants[i := g]),
              AuditEntry(now, "grant.updated", g.provider, session, ScopeName(g.scope), g.permissions))
    else
      Audited(store.(grants := store.grants + [g]),
              AuditEntry(now, "grant.created", g.provider, session, ScopeName(g.scope), g.permissions))
  }

  function GrantPermissions(store: Store, hash: Hash, provider: string, session: string, scope: string,
                            allowed: seq<string>, now: string)
    : Result<(Store, Grant), Refusal>
  {
    match Granted(store, hash, provider, session, scope, allowed, now)
    case Err(refusal) => Err(refusal)
    case Ok(g) => Ok((PutGrant(store, g, session, now), g))
  }

  // ----------------------------------------------------------- authorization

  function Priority(scope: Scope): nat {
    match scope case Provider => 1 case Binding => 2 case Once => 3
  }

  predicate Applies(g: Grant, provider: string, session: string) {
    g.provider == provider && (g.scope == Provider || g.session == session)
  }

  /** The first of the applicable grants with the highest priority, or |grants|. */
  function Select(grants: seq<Grant>, provider: string, session: string): (i: nat)
    ensures i <= |grants|
    ensures i < |grants| ==> Applies(grants[i], provider, session)
    ensures forall j :: 0 <= j < |grants| && Applies(grants[j], provider, session) ==>
              && i < |grants|
              && Priority(grants[j].scope) <= Priority(grants[i].scope)
              && (j < i ==> Priority(grants[j].scope) < Priority(grants[i].scope))
  {
    if grants == [] then 0
    else
      var rest := Select(grants[1..], provider, session);
      assert forall j :: 1 <= j < |grants| ==> grants[j] == grants[1..][j - 1];
      if !Applies(grants[0], provider, session) then 1 + rest
      else if rest < |grants| - 1 && Priority(grants[0].scope) < Priority(grants[1 + rest].scope) then 1 + rest
      else 0
  }

  predicate Current(hash: Hash, g: Grant, requested: map<string, Permission>, id: string) {
    id in requested && id in g.hashes && g.hashes[id] == hash(requested[id])
  }

  /** The ids of a grant whose definitions are still the approved ones, in order. */
  function CurrentIds(hash: Hash, g: Grant, requested: map<string, Permission>, ids: seq<string>): (r: seq<string>)
    ensures forall id :: id in r <==> id in ids && Current(hash, g, requested, id)
  {
    if ids == [] then []
    else (if Current(hash, g, requested, ids[0]) then [ids[0]] else []) + CurrentIds(hash, g, requested, ids[1..])
  }

  function ToolsOf(requested: map<string, Permission>, ids: seq<string>): seq<string>
    requires forall id :: id in ids ==> id in requested
  {
    if ids == [] then [] else requested[ids[0]].tools + ToolsOf(requested, ids[1..])
  }

  /** What the selected grant is worth for the request as it now stands. */
  function Worth(hash: Hash, g: Grant, request: Request, provider: string, session: string)
    : Result<Authorization, Refusal>
  {
    var requested := Definitions(request.permissions);
    var ids := CurrentIds(hash, g, requested, g.permissions);
    var granted, tools := UniqueSorted(ids), UniqueSorted(ToolsOf(requested, ids));
    if RUNTIME_WAKE !in granted then Err(WakeMissingOrChanged)
    else Ok(Authorization(provider, session, g.scope, granted, tools))
  }

  /** The answer of Authorize, whether or not it consumes. */
  function Answer(store: Store, hash: Hash, provider: string, session: string): Result<Authorization, Refusal> {
    match GetRequest(store, provider, session)
    case None => Err(RequestPending)
    case Some(request) =>
      var i := Select(store.grants, provider, session);
      if i == |store.grants| then Err(NotGranted)
      else Worth(hash, store.grants[i], request, provider, session)
  }

  function RemoveAt<T>(items: seq<T>, i: nat): seq<T>
    requires i < |items|
  {
    items[..i] + items[i + 1..]
  }

  function Consumed(store: Store, i: nat, auth: Authorization, now: string): Store
    requires i < |store.grants|
  {
    var used := AuditEntry(now, "runtime.authorized", auth.provider, auth.session, ScopeName(auth.scope),
                           auth.permissions);
    var noted := Audited(store, used);
    if auth.scope != Once then noted
    else
      Audited(noted.(grants := RemoveAt(noted.grants, i)),
              AuditEntry(now, "grant.consumed", auth.provider, auth.session, ScopeName(Once), auth.permissions))
  }

  function Authorize(store: Store, hash: Hash, provider: string, session: string, consume: bool, now: string)
    : (Store, Result<Authorization, Refusal>)
  {
    var answer := Answer(store, hash, provider, session);
    if answer.Ok? && consume
    then (Consumed(store, Select(store.grants, provider, session), answer.value, now), answer)
    else (store, answer)
  }

  // -------------------------------------------------------------- revocation

  predicate Matches(g: Grant, provider: string, session: string, scope: string) {
    Applies(g, provider, session) && (scope == "" || ScopeName(g.scope) == scope)
  }

  function Without(ids: seq<string>, removed: seq<string>): seq<string> {
    if ids == [] then []
    else (if ids[0] in removed then [] else [ids[0]]) + Without(ids[1..], removed)
  }

  lemma {:induction false} WithoutMembers(ids: seq<string>, removed: seq<string>, id: string)
    ensures id in Without(ids, removed) <==> id in ids && id !in removed
  {
    if ids != [] {
      WithoutMembers(ids[1..], removed, id);
      assert ids == [ids[0]] + ids[1..];
    }
  }

  /** The members of `ids` that are to be removed. */
  function Hits(ids: seq<string>, removed: seq<string>): set<string> {
    set id | id in ids && id in removed
  }

  /** What is left of one matching grant. */
  function Reduced(g: Grant, ids: seq<string>): Grant {
    g.(permissions := Without(g.permissions, ids), hashes := g.hashes - Hits(g.permissions, ids))
  }

  /** A matching grant loses the ids, and goes when nothing is left of it. */
  function RevokedOne(g: Grant, provider: string, session: string, scope: string, ids: seq<string>): seq<Grant> {
    if !Matches(g, provider, session, scope) then [g]
    else if ids == [] || Reduced(g, ids).permissions == [] then []
    else [Reduced(g, ids)]
  }

  function Revoked(grants: seq<Grant>, provider: string, session: string, scope: string, ids: seq<string>): seq<Grant> {
    if grants == [] then []
    else RevokedOne(grants[0], provider, session, scope, ids) + Revoked(grants[1..], provider, session, scope, ids)
  }

  predicate Loses(g: Grant, provider: string, session: string, scope: string, ids: seq<string>) {
    Matches(g, provider, session, scope) && (ids == [] || Hits(g.permissions, ids) != {})
  }

  predicate Changes(grants: seq<Grant>, provider: string, session: string, scope: string, ids: seq<string>) {
    exists i :: 0 <= i < |grants| && Loses(grants[i], provider, session, scope, ids)
  }

  lemma ChangesCons(g: Grant, rest: seq<Grant>, provider: string, session: string, scope: string, ids: seq<string>)
    ensures Changes([g] + rest, provider, session, scope, ids)
            <==> Loses(g, provider, session, scope, ids) || Changes(rest, provider, session, scope, ids)
  {
    var all := [g] + rest;
    if Changes(rest, provider, session, scope, ids) {
      var i :| 0 <= i < |rest| && Loses(rest[i], provider, session, scope, ids);
      assert all[i + 1] == rest[i];
    }
    assert all[0] == g;
  }

  function Revoke(store: Store, provider: string, session: string, scope: string, named: seq<string>,
                  now: string): (Store, bool)
  {
    var ids := UniqueSorted(named);
    var changed := Changes(store.grants, provider, session, scope, ids);
    var after := store.(grants := Revoked(store.grants, provider, session, scope, ids));
    var entry := AuditEntry(now, "grant.revoked", provider, session, scope, ids);
    (if changed then Audited(after, entry) else after, changed)
  }
}
