/** Behaviours of the whole system in which an event is run a second time, or is
    acknowledged as completed without a run of its own. */
module PipelineRepeats {
  import opened Common
  import opened Protocol
  import opened Pipeline
  import opened PipelineSchedules
  import Daemon
  import DaemonGate
  import DaemonRepeats
  import DaemonWakes
  import Wake
  import WakeHistory

  /** The system can bring deliveries to the binding, handler `id` is free to take
      them, and the session is authorized for these ids by a grant that lasts. */
  ghost predicate Serves(s: State, id: nat, k: Key, ids: seq<string>) {
    && DaemonWakes.Ready(s.daemon, id, k) && s.daemon.store == WakeHistory.Replay(s.daemon.ops)
    && Given(s, Consent(id, k, ids)) && CanPublish(s, k)
  }

  // ------------------------------------------------------------- many deliveries

  lemma RoundFits(s: State, id: nat, k: Key, d: Delivery, ids: seq<string>)
    requires CanArrive(s, k, d)
    ensures FitsAll(s, Consent(id, k, ids), DaemonRepeats.Round(id, k, d, ids))
  {
  }

  /** A behaviour that brings `n` deliveries of events other than `e`, each of which
      is run with success and answered. */
  ghost predicate Brings(s: State, id: nat, k: Key, ids: seq<string>, e: string, n: nat,
                         actions: seq<Action>, t: State) {
    && Leads(s, actions, t) && NoneResumes(actions)
    && DaemonRepeats.Brought(s.daemon, t.daemon, id, k, e, n)
    && Serves(t, id, k, ids) && Onward(s, t)
  }

  /** What no step takes back. */
  ghost predicate Onward(s: State, t: State) {
    t.name == s.name && t.options == s.options && t.hash == s.hash && s.sent <= t.sent && s.acks <= t.acks
  }

  lemma CanPublishStays(s: State, t: State, k: Key)
    requires CanPublish(s, k) && SameWorld(s, t)
    ensures CanPublish(t, k)
  {
  }

  lemma FreshIsRun(s: State, id: nat, k: Key, d: Delivery, ids: seq<string>, e: string)
    returns (actions: seq<Action>, t: State)
    requires Serves(s, id, k, ids) && CanArrive(s, k, d)
    requires DaemonRepeats.IsFresh(s.daemon, k, d.eventId) && d.eventId != e
    ensures Brings(s, id, k, ids, e, 1, actions, t)
  {
    var moves := DaemonRepeats.Round(id, k, d, ids);
    DaemonRepeats.RoundWorks(s.daemon, id, k, d, ids);
    DaemonRepeats.RoundBrings(s.daemon, id, k, d, ids, e);
    DaemonRepeats.NoneResumesIn(id, k, d, ids);
    RoundFits(s, id, k, d, ids);
    actions, t := Follow(s, Consent(id, k, ids), moves);
    CanPublishStays(s, t, k);
  }

  lemma OneRound(s: State, id: nat, k: Key, ids: seq<string>, e: string) returns (actions: seq<Action>, t: State)
    requires Serves(s, id, k, ids)
    ensures Brings(s, id, k, ids, e, 1, actions, t)
  {
    var unused := DaemonRepeats.FreshDelivery(s.daemon, k, e, s.provider.events.Keys);
    var first, s1, d := Obtain(s, k, unused.eventId);
    var rest;
    rest, t := FreshIsRun(s1, id, k, d, ids, e);
    LeadsOn(s, first, s1, rest, t);
    actions := first + rest;
  }

  lemma OneMore(s: State, id: nat, k: Key, ids: seq<string>, e: string, m: nat, n: nat,
                first: seq<Action>, t: State)
    returns (actions: seq<Action>, u: State)
    requires Brings(s, id, k, ids, e, m, first, t) && n == m + 1
    ensures Brings(s, id, k, ids, e, n, actions, u)
  {
    var rest;
    rest, u := OneRound(t, id, k, ids, e);
    LeadsOn(s, first, t, rest, u);
    DaemonRepeats.BroughtOn(s.daemon, t.daemon, u.daemon, id, k, e, m, 1);
    actions := first + rest;
  }

  lemma BringsNone(s: State, id: nat, k: Key, ids: seq<string>, e: string)
    requires Serves(s, id, k, ids)
    ensures Brings(s, id, k, ids, e, 0, [], s)
  {
    DaemonRepeats.NothingBrought(s.daemon, id, k, e);
  }

  lemma {:induction false} Rounds(s: State, id: nat, k: Key, ids: seq<string>, e: string, n: nat)
    returns (actions: seq<Action>, t: State)
    requires Serves(s, id, k, ids)
    ensures Brings(s, id, k, ids, e, n, actions, t)
    decreases n
  {
    if n == 0 {
      actions, t := [], s;
      BringsNone(s, id, k, ids, e);
    } else {
      var m: nat := n - 1;
      var first, u := Rounds(s, id, k, ids, e, m);
      actions, t := OneMore(s, id, k, ids, e, m, n, first, u);
    }
  }

  // ------------------------------------------------------------- running it again

  /** This behaviour, without a resume, takes delivery `d` up as handler `id` and gets
      it to the start of the adapter. */
  ghost predicate RunsAfter(s: State, id: nat, k: Key, d: Delivery, actions: seq<Action>, t: State) {
    Leads(s, actions, t) && NoneResumes(actions) && DaemonRepeats.AboutToStart(t.daemon, id, k, d)
  }

  lemma StartFits(s: State, id: nat, k: Key, d: Delivery, ids: seq<string>)
    requires CanArrive(s, k, d)
    ensures FitsAll(s, Consent(id, k, ids), DaemonRepeats.UpToStart(id, k, d, ids))
  {
  }

  /** An event that is not completed in the window is run when it is delivered. */
  lemma UnfinishedIsRun(s: State, id: nat, k: Key, ids: seq<string>, d: Delivery)
    returns (actions: seq<Action>, t: State)
    requires Serves(s, id, k, ids) && CanArrive(s, k, d) && Trim(d.eventId) != ""
    requires !DaemonWakes.HasCompleted(s.daemon.store, TrimKey(k), Trim(d.eventId))
    ensures RunsAfter(s, id, k, d, actions, t)
  {
    DaemonRepeats.UnfinishedGetsToStart(s.daemon, id, k, d, ids);
    StartFits(s, id, k, d, ids);
    actions, t := Follow(s, Consent(id, k, ids), DaemonRepeats.UpToStart(id, k, d, ids));
  }

  /** The distance is exact, in the whole system. Whatever has been completed in an
      open, authorized session: 500 deliveries of other events, each of them run and
      answered, are enough, and a redelivery of the event is run again. */
  lemma EvictedEventRunsAgain(s: State, id: nat, k: Key, ids: seq<string>, d: Delivery)
    returns (others: seq<Action>, t: State, again: seq<Action>, u: State)
    requires Serves(s, id, k, ids) && CanArrive(s, k, d) && Trim(d.eventId) != ""
    ensures Brings(s, id, k, ids, Trim(d.eventId), Wake.MAX_EVENT_HISTORY, others, t)
    ensures RunsAfter(t, id, k, d, again, u)
  {
    others, t := Rounds(s, id, k, ids, Trim(d.eventId), Wake.MAX_EVENT_HISTORY);
    DaemonRepeats.NotHeldAfter(s.daemon.ops, t.daemon.ops, TrimKey(k), Trim(d.eventId));
    again, u := UnfinishedIsRun(t, id, k, ids, d);
  }

  /** The delivery was run once, with success, and answered as completed; the daemon
      is idle again. */
  ghost predicate RunAndAnswered(s: State, id: nat, k: Key, d: Delivery, ids: seq<string>, t: State) {
    && t.daemon == DaemonRepeats.AfterRound(s.daemon, k, d, ids)
    && t.daemon.runs == s.daemon.runs + [Daemon.Run(k, d.eventId, ids, Daemon.Success)]
    && (k.provider == s.name ==> Ack(d.deliveryId, d.eventId, AckCompleted) in t.acks)
    && Serves(t, id, k, ids) && CanArrive(t, k, d)
  }

  /** The delivery is run and completed; only the acknowledgement is still to be written. */
  ghost predicate UpToAck(s: State, t: State, id: nat, k: Key, d: Delivery, ids: seq<string>) {
    && SameWorld(s, t) && Given(t, Consent(id, k, ids))
    && t.daemon == DaemonRepeats.HasEnded(
         DaemonRepeats.HasRun(DaemonWakes.Taken(s.daemon, id, k, d), id, ids), id)
  }

  lemma AnswerFits(s: State, id: nat, k: Key, d: Delivery, ids: seq<string>)
    requires CanArrive(s, k, d)
    ensures FitsAll(s, Consent(id, k, ids), DaemonRepeats.UpToAnswer(id, k, d, ids))
    ensures DaemonGate.NoneResumes(DaemonRepeats.UpToAnswer(id, k, d, ids))
  {
  }

  lemma RoundIsEnded(s: State, id: nat, k: Key, d: Delivery, ids: seq<string>)
    returns (actions: seq<Action>, t: State)
    requires Serves(s, id, k, ids) && CanArrive(s, k, d) && Trim(d.eventId) != ""
    requires !DaemonWakes.HasCompleted(s.daemon.store, TrimKey(k), Trim(d.eventId))
    ensures Leads(s, actions, t) && NoneResumes(actions) && UpToAck(s, t, id, k, d, ids)
  {
    DaemonRepeats.RoundIsAnswered(s.daemon, id, k, d, ids);
    AnswerFits(s, id, k, d, ids);
    actions, t := Follow(s, Consent(id, k, ids), DaemonRepeats.UpToAnswer(id, k, d, ids));
  }

  lemma ServesAfter(s: State, t: State, id: nat, k: Key, d: Delivery, ids: seq<string>)
    requires Serves(s, id, k, ids) && CanArrive(s, k, d) && SameWorld(s, t) && Given(t, Consent(id, k, ids))
    requires t.daemon == DaemonRepeats.AfterRound(s.daemon, k, d, ids)
    requires k.provider == s.name ==> Ack(d.deliveryId, d.eventId, AckCompleted) in t.acks
    ensures RunAndAnswered(s, id, k, d, ids, t)
  {
    DaemonRepeats.RoundStaysReady(s.daemon, id, k, d, ids);
    DaemonRepeats.ReplayRound(s.daemon.ops, k, d, ids);
    CanPublishStays(s, t, k);
  }

  lemma AckIsWritten(s: State, t: State, id: nat, k: Key, d: Delivery, ids: seq<string>)
    returns (actions: seq<Action>, u: State)
    requires Serves(s, id, k, ids) && CanArrive(s, k, d) && s.options.handles && UpToAck(s, t, id, k, d, ids)
    ensures Leads(t, actions, u) && NoneResumes(actions) && RunAndAnswered(s, id, k, d, ids, u)
  {
    DaemonRepeats.RoundLeaves(s.daemon, id, k, d, ids);
    actions, u := FollowAck(t, Consent(id, k, ids), id);
    SameWorldOn(s, t, u);
    ServesAfter(s, u, id, k, d, ids);
  }

  lemma RoundIsAnswered(s: State, id: nat, k: Key, d: Delivery, ids: seq<string>)
    returns (actions: seq<Action>, t: State)
    requires Serves(s, id, k, ids) && CanArrive(s, k, d) && Trim(d.eventId) != "" && s.options.handles
    requires !DaemonWakes.HasCompleted(s.daemon.store, TrimKey(k), Trim(d.eventId))
    ensures Leads(s, actions, t) && NoneResumes(actions) && RunAndAnswered(s, id, k, d, ids, t)
  {
    var first, s1 := RoundIsEnded(s, id, k, d, ids);
    var last;
    last, t := AckIsWritten(s, s1, id, k, d, ids);
    LeadsOn(s, first, s1, last, t);
    actions := first + last;
  }

  /** Under an event id with outer white space every redelivery is a new run: a
      delivery that is run with success, saved, and answered as completed, is run
      again when it is delivered again, with nothing in between. */
  lemma UntrimmedEventRunsAgain(s: State, id: nat, k: Key, ids: seq<string>, d: Delivery)
    returns (once: seq<Action>, t: State, again: seq<Action>, u: State)
    requires Serves(s, id, k, ids) && CanArrive(s, k, d) && s.options.handles
    requires Trim(d.eventId) != "" && Trim(d.eventId) != d.eventId
    requires !DaemonWakes.HasCompleted(s.daemon.store, TrimKey(k), Trim(d.eventId))
    ensures Leads(s, once, t) && NoneResumes(once) && RunAndAnswered(s, id, k, d, ids, t)
    ensures RunsAfter(t, id, k, d, again, u)
  {
    once, t := RoundIsAnswered(s, id, k, d, ids);
    DaemonRepeats.UntrimmedStaysPending(s.daemon.ops, k, d, ids);
    again, u := UnfinishedIsRun(t, id, k, ids, d);
  }
}
