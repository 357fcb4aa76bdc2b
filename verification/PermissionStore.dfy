/** The permission store as it is updated in place; every method is proved
    against its value in Permissions. */
module PermissionStore {
  import opened Common
  import opened Permissions

  /** Collects the definitions of a request by id. */
  method CollectDefinitions(permissions: seq<Permission>) returns (requested: map<string, Permission>)
    ensures requested == Definitions(permissions)
  {
    requested := map[];
    for i := 0 to |permissions|
      invariant requested == Definitions(permissions[..i])
    {
      assert permissions[..i + 1][..i] == permissions[..i];
      requested := requested[permissions[i].id := permissions[i]];
    }
    assert permissions[..|permissions|] == permissions;
  }

  /** The validation loop of RecordRequest. */
  method CheckPermissions(permissions: seq<Permission>) returns (checked: Result<seq<Permission>, Refusal>)
    ensures checked == if Checked(permissions, {}).Err? then Checked(permissions, {})
                       else if !Mentions(Checked(permissions, {}).value, RUNTIME_WAKE) then Err(WakeNotRequested)
                       else Checked(permissions, {})
  {
    var done: seq<Permission>, seen: set<string> := [], {};
    var wakeRequested := false;
    ghost var whole := Checked(permissions, {});
    assert permissions[0..] == permissions && (whole.Ok? ==> done + whole.value == whole.value);
    for i := 0 to |permissions|
      invariant wakeRequested <==> Mentions(done, RUNTIME_WAKE)
      invariant Checked(permissions, {}) == Continued(done, Checked(permissions[i..], seen))
    {
      CheckedStep(permissions, i, seen, done);
      var p := Normalized(permissions[i]);
      var flaw := Flaw(p, seen);
      if flaw.Some? { return Err(flaw.value); }
      seen := seen + {p.id};
      MentionsSnoc(done, p, RUNTIME_WAKE);
      wakeRequested := wakeRequested || p.id == RUNTIME_WAKE;
      done := done + [p];
    }
    assert Checked(permissions, {}) == Ok(done + []) && done + [] == done;
    if !wakeRequested { return Err(WakeNotRequested); }
    return Ok(done);
  }

  function Continued(done: seq<Permission>, rest: Result<seq<Permission>, Refusal>): Result<seq<Permission>, Refusal> {
    if rest.Ok? then Ok(done + rest.value) else rest
  }

  lemma CheckedStep(permissions: seq<Permission>, i: nat, seen: set<string>, done: seq<Permission>)
    requires i < |permissions|
    ensures var p := Normalized(permissions[i]);
            Continued(done, Checked(permissions[i..], seen))
            == if Flaw(p, seen).Some? then Err(Flaw(p, seen).value)
               else Continued(done + [p], Checked(permissions[i + 1..], seen + {p.id}))
  {
    assert permissions[i..][1..] == permissions[i + 1..];
    var p := Normalized(permissions[i]);
    var rest := Checked(permissions[i + 1..], seen + {p.id});
    if rest.Ok? { assert done + ([p] + rest.value) == (done + [p]) + rest.value; }
  }

  lemma MentionsSnoc(permissions: seq<Permission>, p: Permission, id: string)
    ensures Mentions(permissions + [p], id) <==> Mentions(permissions, id) || p.id == id
  {
    var all := permissions + [p];
    if Mentions(permissions, id) {
      var i :| 0 <= i < |permissions| && permissions[i].id == id;
      assert all[i].id == id;
    }
    assert all[|permissions|] == p;
  }

  lemma FindRequestIs(requests: seq<Request>, provider: string, session: string, i: nat)
    requires i <= |requests|
    requires i < |requests| ==> requests[i].provider == provider && requests[i].session == session
    requires forall j :: 0 <= j < i ==> !(requests[j].provider == provider && requests[j].session == session)
    ensures FindRequest(requests, provider, session) == i
  {
  }

  lemma FindGrantIs(grants: seq<Grant>, key: GrantKey, i: nat)
    requires i <= |grants|
    requires i < |grants| ==> KeyOf(grants[i]) == key
    requires forall j :: 0 <= j < i ==> KeyOf(grants[j]) != key
    ensures FindGrant(grants, key) == i
  {
  }

  class PermissionFile {
    const hash: Hash
    var requests: seq<Request>
    var grants: seq<Grant>
    var audit: seq<AuditEntry>

    constructor (hash: Hash)
      ensures this.hash == hash && View() == NewStore()
    {
      this.hash := hash;
      requests, grants, audit := [], [], [];
    }

    function View(): Store
      reads this
    {
      Store(requests, grants, audit)
    }

    method AppendAudit(entry: AuditEntry)
      modifies this
      ensures View() == Audited(old(View()), entry)
      ensures 0 < |audit| <= MAX_AUDIT && audit[|audit| - 1] == entry
      ensures |old(audit)| < MAX_AUDIT ==> audit == old(audit) + [entry]
      ensures |old(audit)| >= MAX_AUDIT ==>
                |audit| == MAX_AUDIT && audit == (old(audit) + [entry])[|old(audit)| + 1 - MAX_AUDIT..]
    {
      audit := audit + [entry];
      if |audit| > MAX_AUDIT {
        audit := audit[|audit| - MAX_AUDIT..];
      }
    }

    method FindRequestIndex(provider: string, session: string) returns (index: nat)
      ensures index == FindRequest(requests, provider, session)
    {
      index := 0;
      while index < |requests| && !(requests[index].provider == provider && requests[index].session == session)
        invariant index <= |requests|
        invariant forall j :: 0 <= j < index ==> !(requests[j].provider == provider && requests[j].session == session)
      {
        index := index + 1;
      }
      FindRequestIs(requests, provider, session, index);
    }

    method RecordRequest(request: Request, now: string) returns (result: Result<Request, Refusal>)
      modifies this
      ensures match Permissions.RecordRequest(old(View()), request, now)
              case Ok((store, r)) => result == Ok(r) && View() == store
              case Err(refusal) => result == Err(refusal) && View() == old(View())
    {
      var provider, session, requestId := Trim(request.provider), Trim(request.session), Trim(request.requestId);
      if provider == "" || session == "" || requestId == "" { return Err(MissingIds); }
      if request.permissions == [] { return Err(NoPermissions); }
      var checked := CheckPermissions(request.permissions);
      if checked.Err? { return Err(checked.error); }
      var r := Request(provider, session, requestId, checked.value, now);
      var index := FindRequestIndex(provider, session);
      if index < |requests| {
        requests := requests[index := r];
        AppendAudit(AuditEntry(now, "request.updated", provider, session, "", []));
      } else {
        requests := requests + [r];
        AppendAudit(AuditEntry(now, "request.created", provider, session, "", []));
      }
      return Ok(r);
    }

    method RequestLocal(provider: string, session: string, allow: seq<string>, tools: seq<string>, now: string)
      returns (result: Result<Request, Refusal>)
      modifies this
      ensures match Permissions.RecordRequest(old(View()), LocalRequest(provider, session, allow, tools), now)
              case Ok((store, r)) => result == Ok(r) && View() == store
              case Err(refusal) => result == Err(refusal) && View() == old(View())
    {
      var ids := CollectUniqueSorted([RUNTIME_WAKE] + allow);
      var items: seq<Permission> := [];
      for i := 0 to |ids|
        invariant |items| == i && forall j :: 0 <= j < i ==> items[j] == LocalPermission(ids[j], tools)
      {
        var permission := Permission(ids[i], ids[i], "", "read", BACKGROUND, []);
        if ids[i] == RUNTIME_WAKE {
          permission := permission.(risk := "runtime");
        } else {
          permission := permission.(tools := tools);
        }
        items := items + [permission];
      }
      LocalItems(ids, tools, items);
      result := RecordRequest(Request(provider, session, LOCAL_REQUEST_ID, items, ""), now);
    }

    /** The loop that hashes the definitions a grant approves. */
    method HashAllowed(ids: seq<string>, requested: map<string, Permission>)
      returns (hashes: map<string, string>, refusal: Option<Refusal>)
      ensures refusal == Ungrantable(ids, requested)
      ensures refusal == None ==> hashes.Keys == set i | i in ids
      ensures refusal == None ==> forall i :: i in ids ==> i in requested && hashes[i] == hash(requested[i])
    {
      hashes := map[];
      for i := 0 to |ids|
        invariant Ungrantable(ids, requested) == Ungrantable(ids[i..], requested)
        invariant hashes.Keys == set j | j in ids[..i]
        invariant forall j :: j in ids[..i] ==> j in requested && hashes[j] == hash(requested[j])
      {
        if ids[i] !in requested { return hashes, Some(NotRequested); }
        if requested[ids[i]].delegation == INTERACTIVE_ONLY { return hashes, Some(InteractiveOnly); }
        hashes := hashes[ids[i] := hash(requested[ids[i]])];
        assert ids[..i + 1] == ids[..i] + [ids[i]];
      }
      assert ids[..|ids|] == ids;
      return hashes, None;
    }

    /** Every check of GrantPermissions, up to the grant it is about to store. */
    method DecideGrant(provider: string, session: string, scope: string, allowed: seq<string>, now: string)
      returns (result: Result<Grant, Refusal>)
      ensures result == Granted(View(), hash, provider, session, scope, allowed, now)
    {
      var at := FindRequestIndex(provider, session);
      if at == |requests| { return Err(RequestPending); }
      var kind := ParseScope(scope);
      if kind == None { return Err(UnsupportedScope); }
      var ids := CollectUniqueSorted(allowed);
      if ids == [] { return Err(NothingAllowed); }
      var requested := CollectDefinitions(requests[at].permissions);
      var hashes, refusal := HashAllowed(ids, requested);
      if refusal.Some? { return Err(refusal.value); }
      if RUNTIME_WAKE !in ids { return Err(WakeNotAllowed); }
      var g := Grant(provider, "", session, requests[at].requestId, kind.value, ids, hashes, now);
      if kind.value != Provider {
        g := g.(session := session);
      }
      ApproveIs(hash, requests[at], provider, session, kind.value, ids, now, hashes);
      return Ok(g);
    }

    method GrantPermissions(provider: string, session: string, scope: string, allowed: seq<string>, now: string)
      returns (result: Result<Grant, Refusal>)
      modifies this
      ensures match Permissions.GrantPermissions(old(View()), hash, provider, session, scope, allowed, now)
              case Ok((store, g)) => result == Ok(g) && View() == store
              case Err(refusal) => result == Err(refusal) && View() == old(View())
    {
      result := DecideGrant(provider, session, scope, allowed, now);
      if result.Ok? {
        PutInPlace(result.value, session, now);
      }
    }

    method PutInPlace(g: Grant, session: string, now: string)
      modifies this
      ensures View() == PutGrant(old(View()), g, session, now)
    {
      for index := 0 to |grants|
        invariant View() == old(View())
        invariant forall j :: 0 <= j < index ==> KeyOf(grants[j]) != KeyOf(g)
      {
        if KeyOf(grants[index]) == KeyOf(g) {
          FindGrantIs(grants, KeyOf(g), index);
          grants := grants[index := g];
          AppendAudit(AuditEntry(now, "grant.updated", g.provider, session, ScopeName(g.scope), g.permissions));
          return;
        }
      }
      FindGrantIs(grants, KeyOf(g), |grants|);
      grants := grants + [g];
      AppendAudit(AuditEntry(now, "grant.created", g.provider, session, ScopeName(g.scope), g.permissions));
    }

    /** The loop of Authorize that looks for the grant to use. */
    method SelectGrant(provider: string, session: string) returns (selected: nat)
      ensures selected == Select(grants, provider, session)
    {
      selected := |grants|;
      for index := 0 to |grants|
        invariant selected <= |grants|
        invariant selected < |grants| ==> selected < index && Applies(grants[selected], provider, session)
        invariant forall j :: 0 <= j < index && Applies(grants[j], provider, session) ==>
                    && selected < |grants|
                    && Priority(grants[j].scope) <= Priority(grants[selected].scope)
                    && (j < selected ==> Priority(grants[j].scope) < Priority(grants[selected].scope))
      {
        if Applies(grants[index], provider, session)
           && (selected == |grants| || Priority(grants[index].scope) > Priority(grants[selected].scope)) {
          selected := index;
        }
      }
    }

    /** The loop of Authorize that keeps the ids whose definitions still match. */
    method CollectCurrent(g: Grant, requested: map<string, Permission>)
      returns (granted: seq<string>, tools: seq<string>)
      ensures granted == CurrentIds(hash, g, requested, g.permissions)
      ensures forall id :: id in granted ==> id in requested
      ensures tools == ToolsOf(requested, granted)
    {
      granted, tools := [], [];
      for i := 0 to |g.permissions|
        invariant granted == CurrentIds(hash, g, requested, g.permissions[..i])
        invariant forall id :: id in granted ==> id in requested
        invariant tools == ToolsOf(requested, granted)
      {
        var id := g.permissions[i];
        CurrentSnoc(hash, g, requested, g.permissions[..i], id);
        assert g.permissions[..i + 1] == g.permissions[..i] + [id];
        if Current(hash, g, requested, id) {
          ToolsSnoc(requested, granted, id);
          granted := granted + [id];
          tools := tools + requested[id].tools;
        }
      }
      assert g.permissions[..|g.permissions|] == g.permissions;
    }

    method Authorize(provider: string, session: string, consume: bool, now: string)
      returns (result: Result<Authorization, Refusal>)
      modifies this
      ensures (View(), result) == Permissions.Authorize(old(View()), hash, provider, session, consume, now)
      ensures !consume ==> View() == old(View())
    {
      var at := FindRequestIndex(provider, session);
      if at == |requests| { return Err(RequestPending); }
      var selected := SelectGrant(provider, session);
      if selected == |grants| { return Err(NotGranted); }
      var requested := CollectDefinitions(requests[at].permissions);
      var ids, allTools := CollectCurrent(grants[selected], requested);
      var granted := CollectUniqueSorted(ids);
      var tools := CollectUniqueSorted(allTools);
      if RUNTIME_WAKE !in granted { return Err(WakeMissingOrChanged); }
      var auth := Authorization(provider, session, grants[selected].scope, granted, tools);
      if consume {
        AppendAudit(AuditEntry(now, "runtime.authorized", provider, session, ScopeName(auth.scope), granted));
        if auth.scope == Once {
          grants := grants[..selected] + grants[selected + 1..];
          AppendAudit(AuditEntry(now, "grant.consumed", provider, session, ScopeName(Once), granted));
        }
      }
      return Ok(auth);
    }

    /** The inner loop of Revoke: what one grant keeps. */
    method Remaining(g: Grant, ids: seq<string>) returns (reduced: Grant, changed: bool)
      ensures reduced == Reduced(g, ids)
      ensures changed <==> Hits(g.permissions, ids) != {}
    {
      var remaining: seq<string>, hashes := [], g.hashes;
      changed := false;
      for i := 0 to |g.permissions|
        invariant remaining == Without(g.permissions[..i], ids)
        invariant hashes == g.hashes - Hits(g.permissions[..i], ids)
        invariant changed <==> Hits(g.permissions[..i], ids) != {}
      {
        var id := g.permissions[i];
        HashesStep(g, ids, i);
        WithoutSnoc(g.permissions[..i], id, ids);
        assert g.permissions[..i + 1] == g.permissions[..i] + [id];
        if id !in ids {
          remaining := remaining + [id];
        } else {
          assert remaining + [] == remaining;
          hashes := hashes - {id};
          changed := true;
        }
      }
      assert g.permissions[..|g.permissions|] == g.permissions;
      reduced := g.(permissions := remaining, hashes := hashes);
    }

    /** One turn of the loop of Revoke: shrinks or removes the grant at `index`. */
    method RevokeAt(index: nat, provider: string, session: string, scope: string, ids: seq<string>) returns (lost: bool)
      requires index < |grants|
      modifies this`grants
      ensures grants == old(grants[..index]) + RevokedOne(old(grants[index]), provider, session, scope, ids)
                        + old(grants[index + 1..])
      ensures lost <==> Loses(old(grants[index]), provider, session, scope, ids)
    {
      var g := grants[index];
      if !Matches(g, provider, session, scope) { return false; }
      if ids == [] {
        grants := grants[..index] + grants[index + 1..];
        return true;
      }
      var reduced;
      reduced, lost := Remaining(g, ids);
      grants := grants[index := reduced];
      if reduced.permissions == [] {
        grants := grants[..index] + grants[index + 1..];
      }
    }

    /** Goes through the grants backwards and removes in place as it goes. */
    method RevokeGrants(provider: string, session: string, scope: string, ids: seq<string>) returns (changed: bool)
      modifies this`grants
      ensures grants == Revoked(old(grants), provider, session, scope, ids)
      ensures changed <==> Changes(old(grants), provider, session, scope, ids)
    {
      changed := false;
      ghost var before := grants;
      var index := |grants|;
      while index > 0
        invariant 0 <= index <= |before|
        invariant grants == before[..index] + Revoked(before[index..], provider, session, scope, ids)
        invariant changed <==> Changes(before[index..], provider, session, scope, ids)
      {
        index := index - 1;
        SplitAt(before, index, Revoked(before[index + 1..], provider, session, scope, ids));
        var lost := RevokeAt(index, provider, session, scope, ids);
        changed := changed || lost;
        RevokeStep(before, index, provider, session, scope, ids);
      }
      assert before[0..] == before;
    }

    method Revoke(provider: string, session: string, scope: string, named: seq<string>, now: string)
      returns (changed: bool)
      modifies this
      ensures (View(), changed) == Permissions.Revoke(old(View()), provider, session, scope, named, now)
    {
      var ids := CollectUniqueSorted(named);
      changed := RevokeGrants(provider, session, scope, ids);
      if changed {
        AppendAudit(AuditEntry(now, "grant.revoked", provider, session, scope, ids));
      }
    }
  }

  lemma LocalItems(ids: seq<string>, tools: seq<string>, items: seq<Permission>)
    requires |items| == |ids| && forall j :: 0 <= j < |ids| ==> items[j] == LocalPermission(ids[j], tools)
    ensures items == seq(|ids|, i requires 0 <= i < |ids| => LocalPermission(ids[i], tools))
  {
  }

  /** Before a turn of the loop, the grant at `i` is still the one it was. */
  lemma SplitAt(before: seq<Grant>, i: nat, rest: seq<Grant>)
    requires i < |before|
    ensures var all := before[..i + 1] + rest;
            all[..i] == before[..i] && all[i] == before[i] && all[i + 1..] == rest
  {
  }

  /** After the turn, the grants from `i` on are revoked. */
  lemma RevokeStep(before: seq<Grant>, i: nat, provider: string, session: string, scope: string, ids: seq<string>)
    requires i < |before|
    ensures before[..i] + RevokedOne(before[i], provider, session, scope, ids)
            + Revoked(before[i + 1..], provider, session, scope, ids)
            == before[..i] + Revoked(before[i..], provider, session, scope, ids)
    ensures Changes(before[i..], provider, session, scope, ids)
            <==> Loses(before[i], provider, session, scope, ids)
                 || Changes(before[i + 1..], provider, session, scope, ids)
  {
    var one := RevokedOne(before[i], provider, session, scope, ids);
    var rest := Revoked(before[i + 1..], provider, session, scope, ids);
    assert before[i..] == [before[i]] + before[i + 1..];
    assert before[..i] + one + rest == before[..i] + (one + rest);
    ChangesCons(before[i], before[i + 1..], provider, session, scope, ids);
  }

  lemma {:induction false} ToolsSnoc(requested: map<string, Permission>, ids: seq<string>, id: string)
    requires id in requested && forall i :: i in ids ==> i in requested
    ensures ToolsOf(requested, ids + [id]) == ToolsOf(requested, ids) + requested[id].tools
  {
    if ids != [] {
      assert (ids + [id])[1..] == ids[1..] + [id];
      ToolsSnoc(requested, ids[1..], id);
    }
  }

  lemma ApproveIs(hash: Hash, request: Request, provider: string, session: string, scope: Scope,
                  ids: seq<string>, now: string, hashes: map<string, string>)
    requires Ungrantable(ids, Definitions(request.permissions)) == None
    requires hashes.Keys == set i | i in ids
    requires forall i :: i in ids ==>
               i in Definitions(request.permissions) && hashes[i] == hash(Definitions(request.permissions)[i])
    ensures Approve(hash, request, provider, session, scope, ids, now)
            == Grant(provider, if scope == Provider then "" else session, session, request.requestId,
                     scope, ids, hashes, now)
  {
    var g := Approve(hash, request, provider, session, scope, ids, now);
    assert g.hashes.Keys == hashes.Keys;
    assert forall i :: i in hashes ==> g.hashes[i] == hashes[i];
    assert g.hashes == hashes;
  }

  lemma {:induction false} CurrentSnoc(hash: Hash, g: Grant, requested: map<string, Permission>, ids: seq<string>,
                                       id: string)
    ensures CurrentIds(hash, g, requested, ids + [id])
            == CurrentIds(hash, g, requested, ids) + if Current(hash, g, requested, id) then [id] else []
  {
    var last := if Current(hash, g, requested, id) then [id] else [];
    if ids == [] {
      assert ids + [id] == [id] && [id][1..] == [];
      assert last + [] == last && [] + last == last;
    } else {
      var first := if Current(hash, g, requested, ids[0]) then [ids[0]] else [];
      assert (ids + [id])[1..] == ids[1..] + [id];
      CurrentSnoc(hash, g, requested, ids[1..], id);
      assert first + (CurrentIds(hash, g, requested, ids[1..]) + last)
             == (first + CurrentIds(hash, g, requested, ids[1..])) + last;
    }
  }

  lemma {:induction false} WithoutSnoc(ids: seq<string>, id: string, removed: seq<string>)
    ensures Without(ids + [id], removed) == Without(ids, removed) + if id in removed then [] else [id]
  {
    if ids != [] {
      assert (ids + [id])[1..] == ids[1..] + [id];
      WithoutSnoc(ids[1..], id, removed);
    }
  }

  lemma HashesStep(g: Grant, ids: seq<string>, i: nat)
    requires i < |g.permissions|
    ensures var id, before, after := g.permissions[i], g.permissions[..i], g.permissions[..i + 1];
            if id in ids then
              g.hashes - Hits(after, ids) == (g.hashes - Hits(before, ids)) - {id} && Hits(after, ids) != {}
            else
              Hits(after, ids) == Hits(before, ids)
  {
    var id, before := g.permissions[i], g.permissions[..i];
    assert g.permissions[..i + 1] == before + [id];
    HitsSnoc(before, id, ids);
    MinusMore(g.hashes, Hits(before, ids), id);
  }

  lemma HitsSnoc(ids: seq<string>, id: string, removed: seq<string>)
    ensures Hits(ids + [id], removed) == if id in removed then Hits(ids, removed) + {id} else Hits(ids, removed)
  {
  }

  lemma MinusMore(m: map<string, string>, a: set<string>, x: string)
    ensures m - (a + {x}) == (m - a) - {x}
  {
  }
}
