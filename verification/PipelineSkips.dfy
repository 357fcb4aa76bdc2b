/** A delivery that is acknowledged as completed without a run of its own. */
module PipelineSkips {
  import opened Common
  import opened Protocol
  import opened Pipeline
  import opened PipelineSchedules
  import Daemon
  import DaemonGate
  import DaemonRepeats
  import DaemonWakes
  import Provider
  import WakeJournal

  /** The event id with outer white space. */
  function Padded(e: string, n: nat): string {
    e + seq(n, _ => ' ')
  }

  lemma {:induction false} PaddingIsTrimmed(e: string, n: nat)
    requires Trim(e) == e
    ensures Trim(Padded(e, n)) == e
    decreases n
  {
    var p := Padded(e, n);
    if n == 0 {
      assert p == e;
    } else {
      PaddingIsTrimmed(e, n - 1);
      assert p[..|p| - 1] == Padded(e, n - 1);
      if e == "" { assert p[1..] == Padded(e, n - 1); }
    }
  }

  function RunIds(runs: seq<Daemon.Run>): set<string> {
    set r | r in runs :: r.eventId
  }

  /** The provider keeps the delivery, and its status is `completed`. */
  ghost predicate EndsCompleted(s: State, d: Delivery) {
    OnRecord(s, d) && s.provider.deliveries[d.deliveryId].status == Provider.Acked(AckCompleted)
  }

  /** Receiving the answer, the provider counts the delivery as completed. */
  lemma AckCompletes(s: State, d: Delivery) returns (actions: seq<Action>, t: State)
    requires Ack(d.deliveryId, d.eventId, AckCompleted) in s.acks && OnRecord(s, d)
    requires d.deviceId == s.options.deviceId
    ensures Leads(s, actions, t) && NoneResumes(actions) && t.daemon == s.daemon && EndsCompleted(t, d)
  {
    var a := AckArrives(Ack(d.deliveryId, d.eventId, AckCompleted));
    LeadsOne(s, a);
    actions, t := [a] + [], Step(s, a);
  }

  lemma SkipFits(s: State, id: nat, k: Key, d: Delivery)
    requires CanArrive(s, k, d)
    ensures FitsAll(s, Nothing, DaemonRepeats.Skipping(id, k, d))
    ensures DaemonGate.NoneResumes(DaemonRepeats.Skipping(id, k, d))
  {
  }

  /** A delivery of a completed event is acknowledged as completed, and nothing runs. */
  lemma SkipIsAcknowledged(s: State, id: nat, k: Key, d: Delivery) returns (actions: seq<Action>, t: State)
    requires CanSkip(s, id, k) && CanArrive(s, k, d) && Trim(d.eventId) != ""
    requires DaemonWakes.HasCompleted(s.daemon.store, TrimKey(k), Trim(d.eventId))
    ensures Leads(s, actions, t) && NoneResumes(actions) && SameWorld(s, t) && t.daemon.runs == s.daemon.runs
    ensures Ack(d.deliveryId, d.eventId, AckCompleted) in t.acks
  {
    DaemonRepeats.SkippedIsAnswered(s.daemon, id, k, d);
    SkipFits(s, id, k, d);
    var first, s1 := Follow(s, Nothing, DaemonRepeats.Skipping(id, k, d));
    var last;
    last, t := FollowAck(s1, Nothing, id);
    LeadsOn(s, first, s1, last, t);
    actions := first + last;
    SameWorldOn(s, s1, t);
  }

  lemma SkipCompletes(s: State, id: nat, k: Key, d: Delivery) returns (actions: seq<Action>, t: State)
    requires CanSkip(s, id, k) && CanArrive(s, k, d) && Trim(d.eventId) != ""
    requires OnRecord(s, d) && d.deviceId == s.options.deviceId
    requires DaemonWakes.HasCompleted(s.daemon.store, TrimKey(k), Trim(d.eventId))
    ensures Leads(s, actions, t) && NoneResumes(actions) && t.daemon.runs == s.daemon.runs && EndsCompleted(t, d)
  {
    var first, s1 := SkipIsAcknowledged(s, id, k, d);
    var last;
    last, t := AckCompletes(s1, d);
    LeadsOn(s, first, s1, last, t);
    actions := first + last;
  }

  /** Handler `id` is free to take a delivery from this provider for the binding. */
  ghost predicate CanSkip(s: State, id: nat, k: Key) {
    && k.provider == s.name && s.options.handles && WakeJournal.Usable(TrimKey(k))
    && id !in s.daemon.handlers && k in s.daemon.bound && k !in s.daemon.locks
  }

  /** An event that was never run counts as completed. From every state in which an
      event of the session is completed, the provider can publish another event, whose
      id differs in outer white space only, that no run was ever made for, and that
      ends as completed all the same. */
  lemma CompletedWithoutRun(s: State, id: nat, k: Key, e: string)
    returns (actions: seq<Action>, t: State, d: Delivery)
    requires CanSkip(s, id, k) && CanPublish(s, k) && Trim(e) == e != ""
    requires DaemonWakes.HasCompleted(s.daemon.store, TrimKey(k), e)
    ensures Leads(s, actions, t) && NoneResumes(actions)
    ensures EndsCompleted(t, d)
    ensures d.deviceId == s.options.deviceId && d.sessionId == k.session && Trim(d.eventId) == e != d.eventId
    ensures forall i :: 0 <= i < |t.daemon.runs| ==> t.daemon.runs[i].eventId != d.eventId
  {
    var v := Variant(s.provider.events.Keys, s.daemon.runs, e);
    var first, s1;
    first, s1, d := Obtain(s, k, v);
    var rest;
    rest, t := SkipCompletes(s1, id, k, d);
    LeadsOn(s, first, s1, rest, t);
    actions := first + rest;
  }

  lemma Variant(known: set<string>, runs: seq<Daemon.Run>, e: string) returns (v: string)
    requires Trim(e) == e != ""
    ensures Trim(v) == e != v && v !in known && forall i :: 0 <= i < |runs| ==> runs[i].eventId != v
  {
    var n := DaemonWakes.LongerThanKnown(known + RunIds(runs));
    v := Padded(e, n + 1);
    PaddingIsTrimmed(e, n + 1);
    NotRunYet(runs, v, n);
  }

  lemma NotRunYet(runs: seq<Daemon.Run>, v: string, n: nat)
    requires |v| > n && forall x :: x in RunIds(runs) ==> |x| < n
    ensures forall i :: 0 <= i < |runs| ==> runs[i].eventId != v
  {
    forall i | 0 <= i < |runs| ensures runs[i].eventId != v {
      assert runs[i] in runs && runs[i].eventId in RunIds(runs);
    }
  }
}
