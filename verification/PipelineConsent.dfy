/** What stands behind every adapter run: the authorization that allowed it. */
module PipelineConsent {
  import opened Common
  import opened Pipeline
  import opened PipelineSafety
  import Client
  import Daemon
  import PermissionHistory
  import PermissionTheorems
  import Permissions

  // ------------------------------------------------------ runs and their consent

  /** What an authorization lets the adapter do: this event, with these ids. */
  datatype Licence = Licence(key: Key, eventId: string, permissions: seq<string>)

  /** This step authorizes a handler to make a run under `l`. */
  ghost predicate Issues(s: State, a: Action, l: Licence) {
    && a.Authorize?
    && a.id in s.daemon.handlers
    && s.daemon.handlers[a.id].key == l.key
    && s.daemon.handlers[a.id].delivery.eventId == l.eventId
    && Granting(s, a.id, a.saved) == Some(l.permissions)
  }

  /** The licences that the steps of a behaviour issue. */
  ghost function Licences(s: State, actions: seq<Action>): set<Licence>
    requires Possible(s, actions)
    decreases |actions|
  {
    if actions == [] then {} else Issued(s, actions[0]) + Licences(Step(s, actions[0]), actions[1..])
  }

  ghost function Issued(s: State, a: Action): (r: set<Licence>)
    requires Enabled(s, a)
    ensures forall l :: l in r <==> Issues(s, a, l)
  {
    if a.Authorize? && Granting(s, a.id, a.saved).Some? then
      var h := s.daemon.handlers[a.id];
      {Licence(h.key, h.delivery.eventId, Granting(s, a.id, a.saved).value)}
    else {}
  }

  predicate MayRun(h: Daemon.Handler, licences: set<Licence>) {
    h.phase.Authorized? || h.phase.Executing? ==> Licence(h.key, h.delivery.eventId, h.phase.permissions) in licences
  }

  ghost predicate HandlersLicensed(d: Daemon.State, licences: set<Licence>) {
    forall id :: id in d.handlers ==> MayRun(d.handlers[id], licences)
  }

  /** Every run was made, and every run to come will be made, under a licence. */
  ghost predicate Licensed(d: Daemon.State, licences: set<Licence>) {
    && (forall i :: 0 <= i < |d.runs| ==> Licence(d.runs[i].key, d.runs[i].eventId, d.runs[i].permissions) in licences)
    && HandlersLicensed(d, licences)
  }

  lemma HandlersStayLicensed(d: Daemon.State, a: Daemon.Action, licences: set<Licence>)
    requires Daemon.Enabled(d, a) && HandlersLicensed(d, licences)
    requires a.Authorize? && a.granted.Some? ==>
               Licence(d.handlers[a.id].key, d.handlers[a.id].delivery.eventId, a.granted.value) in licences
    ensures HandlersLicensed(Daemon.Step(d, a), licences)
  {
    if Daemon.OfHandler(a) {
      var p := Daemon.Moved(d, a);
      assert MayRun(d.handlers[a.id], licences);
    }
  }

  lemma StaysLicensed(d: Daemon.State, a: Daemon.Action, licences: set<Licence>)
    requires Daemon.Enabled(d, a) && Licensed(d, licences)
    requires a.Authorize? && a.granted.Some? ==>
               Licence(d.handlers[a.id].key, d.handlers[a.id].delivery.eventId, a.granted.value) in licences
    ensures Licensed(Daemon.Step(d, a), licences)
  {
    HandlersStayLicensed(d, a, licences);
    if a.Return? { assert MayRun(d.handlers[a.id], licences); }
  }

  lemma {:induction false} ExecStaysLicensed(s: State, actions: seq<Action>, licences: set<Licence>)
    requires Possible(s, actions) && Licensed(s.daemon, licences)
    ensures Licensed(Exec(s, actions).daemon, licences + Licences(s, actions))
    decreases |actions|
  {
    if actions == [] {
      assert licences + Licences(s, actions) == licences;
    } else {
      var a, more := actions[0], licences + Issued(s, actions[0]);
      assert Licensed(s.daemon, more) by {
        forall id | id in s.daemon.handlers ensures MayRun(s.daemon.handlers[id], more) {
          assert MayRun(s.daemon.handlers[id], licences);
        }
      }
      var move := Move(s, a);
      if move.Some? { StaysLicensed(s.daemon, move.value, more); }
      ExecStaysLicensed(Step(s, a), actions[1..], more);
      assert more + Licences(Step(s, a), actions[1..]) == licences + Licences(s, actions);
    }
  }

  /** Step `n` of the behaviour issues the licence. */
  ghost predicate IssuedAt(s: State, actions: seq<Action>, n: nat, l: Licence) {
    n < |actions| && Possible(s, actions[..n]) && Issues(Exec(s, actions[..n]), actions[n], l)
  }

  lemma {:induction false} LicenceHasMoment(s: State, actions: seq<Action>, l: Licence) returns (n: nat)
    requires Possible(s, actions) && l in Licences(s, actions)
    ensures IssuedAt(s, actions, n, l)
    decreases |actions|
  {
    if l in Issued(s, actions[0]) {
      n := 0;
      assert actions[..0] == [];
    } else {
      var k := LicenceHasMoment(Step(s, actions[0]), actions[1..], l);
      n := k + 1;
      assert actions[..n][1..] == actions[1..][..k] && actions[..n][0] == actions[0];
    }
  }

  /** What stands behind a licence when it is issued. */
  ghost predicate Consented(s: State, l: Licence) {
    && Permissions.RUNTIME_WAKE in l.permissions
    && (Permissions.Injective(s.hash) ==>
          exists scope ::
            PermissionTheorems.AllBacked(s.hash, s.grants, l.key.provider, l.key.session, scope, l.permissions))
  }

  lemma IssuedIsConsented(s: State, a: Action, l: Licence)
    requires Issues(s, a, l)
    ensures Consented(s, l)
  {
    if Permissions.Injective(s.hash) {
      PermissionTheorems.AuthorizationIsSound(s.hash, s.grants, l.key.provider, l.key.session);
    }
  }

  /** No adapter run without consent. In every behaviour each run, of any
      provider, was made for an event and with ids that an earlier step
      authorized; those ids held `runtime.wake`, and at that step each of them
      was backed by a standing grant for the definition then requested. */
  lemma EveryRunWasAuthorized(name: string, options: Client.Options, hash: Permissions.Hash, bound: set<Key>,
                              grants: seq<PermissionHistory.Op>, actions: seq<Action>, i: nat)
    requires Possible(Init(name, options, hash, bound, grants), actions)
    requires i < |Exec(Init(name, options, hash, bound, grants), actions).daemon.runs|
    ensures var s0 := Init(name, options, hash, bound, grants);
            var r := Exec(s0, actions).daemon.runs[i];
            var l := Licence(r.key, r.eventId, r.permissions);
            exists n: nat :: IssuedAt(s0, actions, n, l) && Consented(Exec(s0, actions[..n]), l)
  {
    var s0 := Init(name, options, hash, bound, grants);
    ExecStaysLicensed(s0, actions, {});
    var r := Exec(s0, actions).daemon.runs[i];
    var l := Licence(r.key, r.eventId, r.permissions);
    var n := LicenceHasMoment(s0, actions, l);
    IssuedIsConsented(Exec(s0, actions[..n]), actions[n], l);
  }

  lemma {:induction false} PossiblePrefix(s: State, actions: seq<Action>, n: nat)
    requires Possible(s, actions) && n <= |actions|
    ensures Possible(s, actions[..n])
    ensures n < |actions| ==> Enabled(Exec(s, actions[..n]), actions[n])
    decreases n
  {
    if n > 0 {
      PossiblePrefix(Step(s, actions[0]), actions[1..], n - 1);
      assert actions[..n][1..] == actions[1..][..n - 1] && actions[..n][0] == actions[0];
    }
  }

  /** This step starts the adapter. */
  predicate Starts(a: Action) {
    a.DaemonStep? && a.action.Start?
  }

  function LicenceAt(d: Daemon.State, id: nat): (l: Option<Licence>) {
    if id in d.handlers && d.handlers[id].phase.Authorized? then
      var h := d.handlers[id];
      Some(Licence(h.key, h.delivery.eventId, h.phase.permissions))
    else None
  }

  /** A handler that holds a licence has it from an earlier step. */
  lemma HeldLicenceIsIssued(s: State, actions: seq<Action>, id: nat) returns (n: nat)
    requires Licensed(s.daemon, {}) && Possible(s, actions) && LicenceAt(Exec(s, actions).daemon, id).Some?
    ensures var l := LicenceAt(Exec(s, actions).daemon, id).value;
            IssuedAt(s, actions, n, l) && Consented(Exec(s, actions[..n]), l)
  {
    var l := LicenceAt(Exec(s, actions).daemon, id).value;
    ExecStaysLicensed(s, actions, {});
    assert {} + Licences(s, actions) == Licences(s, actions);
    assert MayRun(Exec(s, actions).daemon.handlers[id], Licences(s, actions));
    n := LicenceHasMoment(s, actions, l);
    IssuedIsConsented(Exec(s, actions[..n]), actions[n], l);
  }

  lemma StarterHoldsLicence(s: State, a: Action)
    requires Enabled(s, a) && Starts(a)
    ensures LicenceAt(s.daemon, a.action.id).Some?
  {
  }

  /** No start without consent, cut off by a crash or not. Each start of the
      adapter, for any provider, has an earlier step that authorized that event with
      those ids, under `runtime.wake` and standing grants. */
  lemma EveryStartWasAuthorized(name: string, options: Client.Options, hash: Permissions.Hash, bound: set<Key>,
                                grants: seq<PermissionHistory.Op>, actions: seq<Action>, i: nat)
    requires Possible(Init(name, options, hash, bound, grants), actions)
    requires i < |actions| && Starts(actions[i])
    ensures var s0, before := Init(name, options, hash, bound, grants), actions[..i];
            && Possible(s0, before)
            && var l := LicenceAt(Exec(s0, before).daemon, actions[i].action.id);
            && l.Some?
            && exists n: nat :: IssuedAt(s0, before, n, l.value) && Consented(Exec(s0, before[..n]), l.value)
  {
    var s0 := Init(name, options, hash, bound, grants);
    PossiblePrefix(s0, actions, i);
    StarterHoldsLicence(Exec(s0, actions[..i]), actions[i]);
    var n := HeldLicenceIsIssued(s0, actions[..i], actions[i].action.id);
  }

  // ----------------------------------------- one authorization, one start at most

  function LicenceOf(r: Daemon.Run): Licence {
    Licence(r.key, r.eventId, r.permissions)
  }

  function RunsUnder(runs: seq<Daemon.Run>, l: Licence): nat {
    if runs == [] then 0
    else RunsUnder(runs[..|runs| - 1], l) + if LicenceOf(runs[|runs| - 1]) == l then 1 else 0
  }

  /** How many steps of a behaviour start the adapter under this licence. */
  ghost function StartsUnder(s: State, actions: seq<Action>, l: Licence): nat
    requires Possible(s, actions)
    decreases |actions|
  {
    if actions == [] then 0
    else
      (if Starts(actions[0]) && LicenceAt(s.daemon, actions[0].action.id) == Some(l) then 1 else 0)
      + StartsUnder(Step(s, actions[0]), actions[1..], l)
  }

  /** How many steps of a behaviour issue this licence. */
  ghost function TimesIssued(s: State, actions: seq<Action>, l: Licence): nat
    requires Possible(s, actions)
    decreases |actions|
  {
    if actions == [] then 0
    else (if Issues(s, actions[0], l) then 1 else 0) + TimesIssued(Step(s, actions[0]), actions[1..], l)
  }

  /** The handler holds the licence: unused, or with the adapter started under it. */
  predicate Holds(h: Daemon.Handler, l: Licence, started: bool) {
    && (if started then h.phase.Executing? else h.phase.Authorized?)
    && Licence(h.key, h.delivery.eventId, h.phase.permissions) == l
  }

  function Holders(d: Daemon.State, l: Licence, started: bool): set<nat> {
    set id | id in d.handlers && Holds(d.handlers[id], l, started)
  }

  predicate Gives(d: Daemon.State, a: Daemon.Action, l: Licence)
    requires Daemon.Enabled(d, a)
  {
    a.Authorize? && a.granted.Some?
    && Licence(d.handlers[a.id].key, d.handlers[a.id].delivery.eventId, a.granted.value) == l
  }

  /** The step gives up a licence of this kind: by starting, or by returning. */
  predicate Spends(d: Daemon.State, a: Daemon.Action, l: Licence, started: bool) {
    (if started then a.Return? else a.Start?) && a.id in Holders(d, l, started)
  }

  /** The step makes a holder of this kind: an authorization, or a start. */
  predicate Enters(d: Daemon.State, a: Daemon.Action, l: Licence, started: bool)
    requires Daemon.Enabled(d, a)
  {
    if started then Spends(d, a, l, false) else Gives(d, a, l)
  }

  lemma Subset(a: set<nat>, b: set<nat>)
    requires a <= b
    ensures |a| <= |b|
  {
    assert |b - a| + |a| == |b| by { assert (b - a) + a == b; }
  }

  lemma HoldersAfter(d: Daemon.State, a: Daemon.Action, l: Licence, started: bool, id: nat)
    requires Daemon.Enabled(d, a) && id in Holders(Daemon.Step(d, a), l, started)
    ensures id in Holders(d, l, started) || (Enters(d, a, l, started) && id == a.id)
    ensures !((if started then a.Return? else a.Start?) && a.id == id)
  {
    if Daemon.OfHandler(a) { var p := Daemon.Moved(d, a); }
  }

  lemma StepSpends(d: Daemon.State, a: Daemon.Action, l: Licence, started: bool)
    requires Daemon.Enabled(d, a)
    ensures (if Spends(d, a, l, started) then 1 else 0) + |Holders(Daemon.Step(d, a), l, started)|
            <= |Holders(d, l, started)| + if Enters(d, a, l, started) then 1 else 0
  {
    var held, left := Holders(d, l, started), Holders(Daemon.Step(d, a), l, started);
    forall id | id in left ensures id in held || (Enters(d, a, l, started) && id == a.id) {
      HoldersAfter(d, a, l, started, id);
    }
    if Enters(d, a, l, started) {
      Subset(left, held + {a.id});
    } else if Spends(d, a, l, started) {
      if a.id in left { HoldersAfter(d, a, l, started, a.id); }
      Subset(left, held - {a.id});
    } else {
      Subset(left, held);
    }
  }

  lemma RunsAfter(d: Daemon.State, a: Daemon.Action, l: Licence)
    requires Daemon.Enabled(d, a)
    ensures RunsUnder(Daemon.Step(d, a).runs, l) == RunsUnder(d.runs, l) + if Spends(d, a, l, true) then 1 else 0
  {
    var after := Daemon.Step(d, a).runs;
    if a.Return? { assert after[..|after| - 1] == d.runs; }
  }

  lemma {:induction false} StartsArePaid(s: State, actions: seq<Action>, l: Licence)
    requires Possible(s, actions)
    ensures StartsUnder(s, actions, l) + |Holders(Exec(s, actions).daemon, l, false)|
            <= |Holders(s.daemon, l, false)| + TimesIssued(s, actions, l)
    decreases |actions|
  {
    if actions != [] {
      var move := Move(s, actions[0]);
      if move.Some? { StepSpends(s.daemon, move.value, l, false); }
      StartsArePaid(Step(s, actions[0]), actions[1..], l);
    }
  }

  lemma {:induction false} RunsWereStarted(s: State, actions: seq<Action>, l: Licence)
    requires Possible(s, actions)
    ensures RunsUnder(Exec(s, actions).daemon.runs, l) + |Holders(Exec(s, actions).daemon, l, true)|
            <= RunsUnder(s.daemon.runs, l) + |Holders(s.daemon, l, true)| + StartsUnder(s, actions, l)
    decreases |actions|
  {
    if actions != [] {
      var move := Move(s, actions[0]);
      if move.Some? {
        StepSpends(s.daemon, move.value, l, true);
        RunsAfter(s.daemon, move.value, l);
      }
      RunsWereStarted(Step(s, actions[0]), actions[1..], l);
    }
  }

  /** An authorization pays for one start at most: in every behaviour the finished
      runs for an event with given ids do not outnumber the starts of the adapter
      for it, and those do not outnumber the steps that authorized just that. */
  lemma RunsNeverExceedAuthorizations(name: string, options: Client.Options, hash: Permissions.Hash, bound: set<Key>,
                                      grants: seq<PermissionHistory.Op>, actions: seq<Action>, l: Licence)
    requires Possible(Init(name, options, hash, bound, grants), actions)
    ensures var s0 := Init(name, options, hash, bound, grants);
            && RunsUnder(Exec(s0, actions).daemon.runs, l) <= StartsUnder(s0, actions, l)
            && StartsUnder(s0, actions, l) <= TimesIssued(s0, actions, l)
  {
    StartsArePaid(Init(name, options, hash, bound, grants), actions, l);
    RunsWereStarted(Init(name, options, hash, bound, grants), actions, l);
  }
}
