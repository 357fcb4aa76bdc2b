/** In the whole system only bindings with trimmed ids are ever authorized. */
module PipelineTrimmed {
  import opened Common
  import opened Pipeline
  import opened PipelineSafety
  import Client
  import Daemon
  import DaemonRuns
  import PermissionAnswers
  import PermissionHistory
  import Permissions

  /** A handler that got an authorization. */
  predicate WasAuthorized(p: Daemon.Phase) {
    p.Authorized? || p.Executing? || p.Ran?
  }

  predicate Plain(k: Key) {
    PermissionAnswers.Plain(k.provider, k.session)
  }

  /** Authorizations and runs are those of bindings whose ids are trimmed and not empty. */
  ghost predicate OnlyPlainRun(d: Daemon.State) {
    && (forall id :: id in d.handlers && WasAuthorized(d.handlers[id].phase) ==> Plain(d.handlers[id].key))
    && (forall i :: 0 <= i < |d.runs| ==> Plain(d.runs[i].key))
  }

  lemma GrantedIsPlain(s: State, id: nat, saved: bool)
    requires id in s.daemon.handlers && Granting(s, id, saved).Some?
    ensures Plain(s.daemon.handlers[id].key)
  {
    var k := s.daemon.handlers[id].key;
    if !Plain(k) { PermissionAnswers.UntrimmedIsNeverAnswered(s.hash, s.grants, k.provider, k.session); }
  }

  lemma MoveKeepsPlain(d: Daemon.State, a: Daemon.Action)
    requires Daemon.Enabled(d, a) && OnlyPlainRun(d)
    requires a.Authorize? && a.granted.Some? ==> Plain(d.handlers[a.id].key)
    ensures OnlyPlainRun(Daemon.Step(d, a))
  {
    if Daemon.OfHandler(a) { var p := Daemon.Moved(d, a); }
  }

  lemma StepKeepsPlain(s: State, a: Action)
    requires Enabled(s, a) && OnlyPlainRun(s.daemon)
    ensures OnlyPlainRun(Step(s, a).daemon)
  {
    var move := Move(s, a);
    if move.Some? {
      if a.Authorize? && move.value.granted.Some? { GrantedIsPlain(s, a.id, a.saved); }
      MoveKeepsPlain(s.daemon, move.value);
    }
  }

  lemma {:induction false} ExecKeepsPlain(s: State, actions: seq<Action>)
    requires Possible(s, actions) && OnlyPlainRun(s.daemon)
    ensures OnlyPlainRun(Exec(s, actions).daemon)
    decreases |actions|
  {
    if actions != [] {
      StepKeepsPlain(s, actions[0]);
      ExecKeepsPlain(Step(s, actions[0]), actions[1..]);
    }
  }

  lemma PlainIsTrimmed(d: Daemon.State)
    requires OnlyPlainRun(d)
    ensures DaemonRuns.AuthorizedAreTrimmed(d)
  {
  }

  /** Every start of the adapter, and every finished run, is for a binding with trimmed
      ids: a session that is bound with outer white space is never woken, whatever is
      requested and granted. */
  lemma OnlyTrimmedBindingsWake(name: string, options: Client.Options, hash: Permissions.Hash, bound: set<Key>,
                                grants: seq<PermissionHistory.Op>, actions: seq<Action>)
    requires Possible(Init(name, options, hash, bound, grants), actions)
    ensures var d := Exec(Init(name, options, hash, bound, grants), actions).daemon;
            && (forall id :: Daemon.InPhase(d, id, (p: Daemon.Phase) => p.Authorized? || p.Executing?) ==>
                  TrimKey(d.handlers[id].key) == d.handlers[id].key)
            && (forall i :: 0 <= i < |d.runs| ==> TrimKey(d.runs[i].key) == d.runs[i].key)
  {
    ExecKeepsPlain(Init(name, options, hash, bound, grants), actions);
  }
}
