/** The handler code of the daemon, statement by statement: each access to the
    event store loads the saved file, mutates it and saves it. Every method is
    proved to take exactly the steps of the handler protocol. */
module DaemonProcess {
  import opened Common
  import opened Protocol
  import opened Wake
  import opened Daemon
  import WakeHistory
  import WakeMeaning
  import WakeStore
  import Permissions
  import PermissionHistory
  import PermissionMeaning
  import PermissionStore

  /** What the world outside decides during one delivery: clocks, whether each
      save succeeds, and how the adapter run ends. */
  datatype Inputs = Inputs(
    recordedAt: string,
    recordSaved: bool,
    authorizedAt: string,
    authorizationSaved: bool,
    startedAt: string,
    permissionsSaved: bool,
    outcome: Outcome,
    finishedAt: string,
    finishSaved: bool)

  /** What becomes of a delivery when it is recorded: it cannot be put on file,
      its event was completed before, its session is gated, or it may wake. */
  datatype Arrival = Lost | Seen | Held | Open

  function ArrivalOf(store: Store, key: Key, d: Delivery, now: string, saved: bool): Arrival {
    match RecordDelivery(store, key, d.eventId, d.deliveryId, d.payload, now)
    case Err(_) => Lost
    case Ok((_, session, duplicate)) =>
      if !saved then Lost else if duplicate then Seen else if Gated(session) then Held else Open
  }

  /** A delivery is lost when an id is blank or the save fails, seen when its event is
      on file as completed, held when the session is paused or crashed, and may wake
      otherwise. */
  lemma ArrivalMeans(ops: seq<WakeHistory.Op>, key: Key, d: Delivery, now: string, saved: bool)
    returns (was: Session)
    ensures var k, e := Key(Trim(key.provider), Trim(key.session)), Trim(d.eventId);
            && WakeMeaning.Begins(Lookup(WakeHistory.Replay(ops), k), k, now, was)
            && ArrivalOf(WakeHistory.Replay(ops), key, d, now, saved)
               == if !saved || k.provider == "" || k.session == "" || e == "" then Lost
                  else if WakeMeaning.CompletedOnFile(was.events, e) then Seen
                  else if was.lifecycle.status == Paused || was.lifecycle.status == Crashed then Held
                  else Open
  {
    var store := WakeHistory.Replay(ops);
    WakeMeaning.DeliveryIsRefusedIff(store, key, d.eventId, d.deliveryId, d.payload, now);
    if RecordDelivery(store, key, d.eventId, d.deliveryId, d.payload, now).Ok? {
      was := WakeMeaning.DeliveryLeaves(ops, key, d.eventId, d.deliveryId, d.payload, now);
    } else {
      was := Ensured(store, TrimKey(key), now);
    }
  }

  /** The ids an authorization lets the adapter use, if it could be saved. */
  function Licence(store: Permissions.Store, hash: Permissions.Hash, key: Key, saved: bool): Option<seq<string>> {
    var answer := Permissions.Answer(store, hash, key.provider, key.session);
    if answer.Ok? && saved then Some(answer.value.permissions) else None
  }

  /** A wake is licensed when the authorization is saved, the session has a request, a
      grant counts for it, and the history approves `runtime.wake` under that grant as
      it is requested now; it is licensed for just the ids so approved. */
  lemma LicenceMeans(hash: Permissions.Hash, ops: seq<PermissionHistory.Op>, key: Key, saved: bool)
    ensures var store := PermissionHistory.Replay(hash, ops);
            var best := PermissionHistory.Best(store.grants, key.provider, key.session);
            var granted := Licence(store, hash, key, saved);
            if !saved || Permissions.GetRequest(store, key.provider, key.session).None? || best.None?
            then granted == None
            else
              var grant := Permissions.KeyOf(best.value);
              && (granted.Some? <==>
                    PermissionMeaning.ApprovedNow(hash, ops, grant, key.provider, key.session, "runtime.wake"))
              && (granted.Some? ==>
                    PermissionMeaning.ExactIds(hash, ops, grant, key.provider, key.session, granted.value))
  {
    PermissionMeaning.AnswerIsExact(hash, ops, key.provider, key.session);
  }

  /** The steps one delivery takes, in order, with what the world decides for each. */
  function StepsOf(id: nat, inputs: Inputs, arrival: Arrival, granted: Option<seq<string>>): seq<Action> {
    [Lock(id), Record(id, inputs.recordedAt, inputs.recordSaved)]
    + (if arrival.Open? then WakeSteps(id, inputs, granted) else [])
    + [Unlock(id)]
  }

  function WakeSteps(id: nat, inputs: Inputs, granted: Option<seq<string>>): seq<Action> {
    [Authorize(id, granted)]
    + if granted.None? then [Deny(id, inputs.finishedAt, inputs.finishSaved)]
      else [Start(id, inputs.startedAt, inputs.permissionsSaved)] + RunSteps(id, inputs)
  }

  function RunSteps(id: nat, inputs: Inputs): seq<Action> {
    [Return(id, inputs.outcome), Daemon.Complete(id, inputs.finishedAt, inputs.finishSaved)]
  }

  /** The steps of a delivery that may not wake, of one whose wake is refused, and of one
      that is run. */
  lemma StepsMean(id: nat, inputs: Inputs, arrival: Arrival, granted: Option<seq<string>>)
    ensures StepsOf(id, inputs, arrival, granted)
            == if arrival != Open then [Lock(id), Record(id, inputs.recordedAt, inputs.recordSaved), Unlock(id)]
               else if granted == None
               then [Lock(id), Record(id, inputs.recordedAt, inputs.recordSaved), Authorize(id, None),
                     Deny(id, inputs.finishedAt, inputs.finishSaved), Unlock(id)]
               else [Lock(id), Record(id, inputs.recordedAt, inputs.recordSaved), Authorize(id, granted),
                     Start(id, inputs.startedAt, inputs.permissionsSaved), Return(id, inputs.outcome),
                     Daemon.Complete(id, inputs.finishedAt, inputs.finishSaved), Unlock(id)]
  {
    assert [Authorize(id, None)] + [Deny(id, inputs.finishedAt, inputs.finishSaved)]
           == [Authorize(id, None), Deny(id, inputs.finishedAt, inputs.finishSaved)];
  }

  lemma StepThenMore(before: seq<Action>, a: Action, more: seq<Action>)
    ensures (before + [a]) + more == before + ([a] + more)
  {
  }

  class Process {
    /** The saved event store. */
    var events: Store
    const permissionState: PermissionStore.PermissionFile

    constructor (permissionState: PermissionStore.PermissionFile)
      ensures events == [] && this.permissionState == permissionState
    {
      this.permissionState := permissionState;
      events := [];
    }

    method RecordOrGate(ghost s: State, id: nat, key: Key, d: Delivery, now: string, saved: bool)
      returns (duplicate: bool, blocked: bool, failed: bool)
      requires s.store == events && id in s.handlers && s.handlers[id] == Handler(key, d, Locked)
      modifies this
      ensures var t := Daemon.RecordOrGate(s, id, now, saved);
              && t.store == events
              && t.handlers[id].phase == if failed then Leaving(false) else if duplicate then Leaving(true)
                                         else if blocked then Leaving(false) else OnFile
      ensures var arrival := ArrivalOf(old(events), key, d, now, saved);
              failed == arrival.Lost? && duplicate == arrival.Seen? && blocked == arrival.Held?
    {
      var store := new WakeStore.EventStore();
      store.sessions := events;
      var state, seen, error := store.RecordDelivery(key, d.eventId, d.deliveryId, d.payload, now);
      if error.Some? || !saved { return false, false, true; }
      events := store.sessions;
      if seen { return true, false, false; }
      return false, Gated(state.value), false;
    }

    /** mutateEventStore with CompleteEvent, and MarkCrashed for a broken binding. */
    method Complete(ghost s: State, h: Handler, outcome: Outcome, now: string, saved: bool)
      requires s.store == events
      modifies this
      ensures events == CompleteRun(s, h, outcome, now, saved).store
    {
      var store := new WakeStore.EventStore();
      store.sessions := events;
      var status := if outcome.Success? then Completed else Failed;
      var state, error := store.CompleteEvent(h.key, h.delivery.eventId, status, now);
      if outcome.Unusable? {
        var crashed := store.MarkCrashed(h.key, outcome.reason, now);
      }
      if saved {
        events := store.sessions;
      }
    }

    method SetPermissions(ghost s: State, key: Key, permissions: seq<string>, now: string, saved: bool)
      requires s.store == events
      modifies this
      ensures events == Mutate(s, WakeHistory.DoGrant(key, permissions, now), saved).store
    {
      var store := new WakeStore.EventStore();
      store.sessions := events;
      var state := store.SetPermissions(key, permissions, now);
      if saved {
        events := store.sessions;
      }
    }

    /** The part of `handle` after the delivery is on file: authorize, run, complete. */
    method Wake(ghost s: State, ghost before: seq<Action>, id: nat, key: Key, d: Delivery, inputs: Inputs)
      returns (ok: bool, ghost actions: seq<Action>)
      requires Possible(s, before) && Exec(s, before).store == events
      requires id in Exec(s, before).handlers && Exec(s, before).handlers[id] == Handler(key, d, OnFile)
      modifies this, permissionState
      ensures Possible(s, actions) && Exec(s, actions).store == events
      ensures id in Exec(s, actions).handlers && Exec(s, actions).handlers[id] == Handler(key, d, Leaving(ok))
      ensures permissionState.View() == Permissions.Authorize(
                old(permissionState.View()), permissionState.hash,
                key.provider, key.session, true, inputs.authorizedAt).0
      ensures var granted := Licence(old(permissionState.View()), permissionState.hash, key, inputs.authorizationSaved);
              && actions == before + WakeSteps(id, inputs, granted)
              && (ok <==> granted.Some? && inputs.outcome.Success?)
              && Exec(s, actions).runs == Exec(s, before).runs
                 + if granted.Some? then [Daemon.Run(key, d.eventId, granted.value, inputs.outcome)] else []
    {
      var granted := AuthorizeWake(key, inputs.authorizedAt, inputs.authorizationSaved);
      actions := before + [Authorize(id, granted)];
      Extend(s, before, Authorize(id, granted));
      if granted.None? {
        actions := DenyWake(s, actions, id, key, d, inputs);
        StepThenMore(before, Authorize(id, granted), [Deny(id, inputs.finishedAt, inputs.finishSaved)]);
        return false, actions;
      }
      ok, actions := Run(s, actions, id, key, d, granted.value, inputs);
      StepThenMore(before, Authorize(id, granted),
                   [Start(id, inputs.startedAt, inputs.permissionsSaved)] + RunSteps(id, inputs));
    }

    /** Authorize under `permissionLock`; a failed save counts as a refusal. */
    method AuthorizeWake(key: Key, now: string, saved: bool) returns (granted: Option<seq<string>>)
      modifies permissionState
      ensures permissionState.View() == Permissions.Authorize(
                old(permissionState.View()), permissionState.hash, key.provider, key.session, true, now).0
      ensures granted == Licence(old(permissionState.View()), permissionState.hash, key, saved)
    {
      var authorization := permissionState.Authorize(key.provider, key.session, true, now);
      granted := if authorization.Ok? && saved then Some(authorization.value.permissions) else None;
    }

    /** Without an authorization the event is closed as failed. */
    method DenyWake(ghost s: State, ghost before: seq<Action>, id: nat, key: Key, d: Delivery, inputs: Inputs)
      returns (ghost actions: seq<Action>)
      requires Possible(s, before) && Exec(s, before).store == events
      requires id in Exec(s, before).handlers && Exec(s, before).handlers[id] == Handler(key, d, Denied)
      modifies this
      ensures Possible(s, actions) && Exec(s, actions).store == events
      ensures id in Exec(s, actions).handlers && Exec(s, actions).handlers[id] == Handler(key, d, Leaving(false))
      ensures Exec(s, actions).runs == Exec(s, before).runs
      ensures actions == before + [Deny(id, inputs.finishedAt, inputs.finishSaved)]
    {
      ghost var t := Exec(s, before);
      Complete(t, Handler(key, d, Denied), Failure, inputs.finishedAt, inputs.finishSaved);
      Extend(s, before, Deny(id, inputs.finishedAt, inputs.finishSaved));
      actions := before + [Deny(id, inputs.finishedAt, inputs.finishSaved)];
    }

    /** An authorized wake: note the permissions, run the adapter, complete. */
    method Run(ghost s: State, ghost before: seq<Action>, id: nat, key: Key, d: Delivery, permissions: seq<string>,
               inputs: Inputs)
      returns (ok: bool, ghost actions: seq<Action>)
      requires Possible(s, before) && Exec(s, before).store == events && id in Exec(s, before).handlers
      requires Exec(s, before).handlers[id] == Handler(key, d, Phase.Authorized(permissions))
      modifies this
      ensures Possible(s, actions) && Exec(s, actions).store == events
      ensures id in Exec(s, actions).handlers && Exec(s, actions).handlers[id] == Handler(key, d, Leaving(ok))
      ensures Exec(s, actions).runs
              == Exec(s, before).runs + [Daemon.Run(key, d.eventId, permissions, inputs.outcome)]
      ensures ok <==> inputs.outcome.Success?
      ensures actions == before + ([Start(id, inputs.startedAt, inputs.permissionsSaved)] + RunSteps(id, inputs))
    {
      ghost var t := Exec(s, before);
      SetPermissions(t, key, permissions, inputs.startedAt, inputs.permissionsSaved);
      Extend(s, before, Start(id, inputs.startedAt, inputs.permissionsSaved));
      actions := before + [Start(id, inputs.startedAt, inputs.permissionsSaved)];
      ok, actions := Execute(s, actions, id, key, d, permissions, inputs);
    }

    /** The adapter run and the completion that follows it. */
    method Execute(ghost s: State, ghost before: seq<Action>, id: nat, key: Key, d: Delivery,
                   permissions: seq<string>, inputs: Inputs)
      returns (ok: bool, ghost actions: seq<Action>)
      requires Possible(s, before) && Exec(s, before).store == events
      requires id in Exec(s, before).handlers
      requires Exec(s, before).handlers[id] == Handler(key, d, Executing(permissions))
      modifies this
      ensures Possible(s, actions) && Exec(s, actions).store == events
      ensures id in Exec(s, actions).handlers && Exec(s, actions).handlers[id] == Handler(key, d, Leaving(ok))
      ensures Exec(s, actions).runs
              == Exec(s, before).runs + [Daemon.Run(key, d.eventId, permissions, inputs.outcome)]
      ensures ok <==> inputs.outcome.Success?
      ensures actions == before + RunSteps(id, inputs)
    {
      Extend(s, before, Return(id, inputs.outcome));
      actions := before + [Return(id, inputs.outcome)];
      ghost var t := Exec(s, actions);
      Complete(t, Handler(key, d, Ran(inputs.outcome)), inputs.outcome, inputs.finishedAt, inputs.finishSaved);
      Extend(s, actions, Daemon.Complete(id, inputs.finishedAt, inputs.finishSaved));
      actions := actions + [Daemon.Complete(id, inputs.finishedAt, inputs.finishSaved)];
      return inputs.outcome.Success?, actions;
    }

    /** Takes the session lock, then records or gates. */
    method Admit(ghost s: State, id: nat, key: Key, d: Delivery, inputs: Inputs)
      returns (arrival: Arrival, ghost actions: seq<Action>)
      requires s.store == events && id in s.handlers && s.handlers[id] == Handler(key, d, Waiting) && key !in s.locks
      modifies this
      ensures Possible(s, actions) && Exec(s, actions).store == events && Exec(s, actions).runs == s.runs
      ensures id in Exec(s, actions).handlers
      ensures Exec(s, actions).handlers[id] == Handler(key, d, if arrival.Open? then OnFile else Leaving(arrival.Seen?))
      ensures arrival == ArrivalOf(old(events), key, d, inputs.recordedAt, inputs.recordSaved)
      ensures actions == [Lock(id), Record(id, inputs.recordedAt, inputs.recordSaved)]
    {
      actions := [];
      Extend(s, actions, Lock(id));
      actions := actions + [Lock(id)];
      ghost var t := Exec(s, actions);
      var duplicate, blocked, failed := RecordOrGate(t, id, key, d, inputs.recordedAt, inputs.recordSaved);
      Extend(s, actions, Record(id, inputs.recordedAt, inputs.recordSaved));
      actions := actions + [Record(id, inputs.recordedAt, inputs.recordSaved)];
      arrival := if failed then Lost else if blocked then Held else if duplicate then Seen else Open;
    }

    /** The `handle` closure, run without interruption, is a behaviour of the
        protocol. The adapter runs exactly when the delivery is new to an open
        session and an authorization was found and saved, and success is
        reported exactly for a completed event or a successful run. */
    method Handle(ghost s: State, id: nat, key: Key, d: Delivery, inputs: Inputs)
      returns (ok: bool, ghost actions: seq<Action>)
      requires s.store == events && id in s.handlers && s.handlers[id] == Handler(key, d, Waiting) && key !in s.locks
      modifies this, permissionState
      ensures Possible(s, actions) && Exec(s, actions).store == events
      ensures id in Exec(s, actions).handlers && Exec(s, actions).handlers[id] == Handler(key, d, Answered(ok))
      ensures key !in Exec(s, actions).locks
      ensures var arrival := ArrivalOf(old(events), key, d, inputs.recordedAt, inputs.recordSaved);
              var granted := if arrival.Open?
                             then Licence(old(permissionState.View()), permissionState.hash, key,
                                          inputs.authorizationSaved)
                             else None;
              && actions == StepsOf(id, inputs, arrival, granted)
              && Exec(s, actions).runs
                 == s.runs + (if granted.Some? then [Daemon.Run(key, d.eventId, granted.value, inputs.outcome)] else [])
              && (ok <==> arrival.Seen? || (granted.Some? && inputs.outcome.Success?))
              && (!arrival.Open? ==> permissionState.View() == old(permissionState.View()))
    {
      var arrival;
      arrival, actions := Admit(s, id, key, d, inputs);
      ok := arrival.Seen?;
      if arrival.Open? {
        ok, actions := Wake(s, actions, id, key, d, inputs);
      }
      Extend(s, actions, Unlock(id));
      actions := actions + [Unlock(id)];
    }
  }
}
