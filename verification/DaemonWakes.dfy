/** Behaviours that start the adapter: an open session whose lock is free lets a
    delivery through. */
module DaemonWakes {
  import opened Common
  import opened Protocol
  import opened Wake
  import opened WakeHistory
  import opened WakeJournal
  import opened Daemon
  import opened DaemonInvariants
  import opened DaemonGate
  import Permissions

  /** The least that an authorization allows. */
  const WAKE_ONLY := [Permissions.RUNTIME_WAKE]

  /** Some behaviour without any resume starts the adapter for `k`. */
  ghost predicate CanWake(s: State, k: Key) {
    exists actions :: Possible(s, actions) && NoneResumes(actions) && Wakes(s, actions, k)
  }

  lemma WakesNow(s: State, id: nat, k: Key)
    requires Enabled(s, Start(id, "", true)) && s.handlers[id].key == k
    ensures CanWake(s, k)
  {
    var actions := [Start(id, "", true)];
    assert Possible(s, actions) && NoneResumes(actions) && Wakes(s, actions, k);
  }

  lemma WakesAfter(s: State, a: Action, k: Key)
    requires Enabled(s, a) && !a.ResumeSession? && CanWake(Step(s, a), k)
    ensures CanWake(s, k)
  {
    var rest :| Possible(Step(s, a), rest) && NoneResumes(rest) && Wakes(Step(s, a), rest, k);
    var actions := [a] + rest;
    assert actions[1..] == rest;
    assert Possible(s, actions) && NoneResumes(actions) && Wakes(s, actions, k);
  }

  lemma OnFileCanWake(s: State, id: nat, k: Key)
    requires InPhase(s, id, (p: Phase) => p.OnFile?) && s.handlers[id].key == k
    ensures CanWake(s, k)
  {
    WakesNow(Step(s, Authorize(id, Some(WAKE_ONLY))), id, k);
    WakesAfter(s, Authorize(id, Some(WAKE_ONLY)), k);
  }

  /** A trimmed, non-empty event id that the session does not hold, and that is not known. */
  lemma FreshEvent(events: seq<EventRecord>, known: set<string>) returns (e: string)
    ensures Trim(e) == e != "" && IndexOf(events, e) == |events| && e !in known
  {
    var longest := LongerThanKnown(known);
    e := LongerThanAll(events, longest);
    IndexOfAbsent(events, e);
  }

  lemma LongerThanKnown(known: set<string>) returns (n: nat)
    ensures forall x :: x in known ==> |x| < n
    decreases |known|
  {
    if known == {} {
      n := 0;
    } else {
      var x :| x in known;
      var m := LongerThanKnown(known - {x});
      n := m + |x| + 1;
      assert forall y :: y in known ==> y == x || y in known - {x};
    }
  }

  lemma LongerThanAll(events: seq<EventRecord>, n: nat) returns (e: string)
    ensures |e| >= n && e != "" && e[0] == 'x' && e[|e| - 1] == 'x'
    ensures forall i :: 0 <= i < |events| ==> |events[i].eventId| < |e|
  {
    if events == [] {
      e := seq(n + 1, _ => 'x');
    } else {
      e := LongerThanAll(events[1..], n);
      var filler := seq(|events[0].eventId|, _ => 'x');
      e := e + filler + "x";
    }
  }

  /** A new delivery for binding `k` can be taken up at once, by handler `id`,
      and the session it is recorded in is not gated. */
  ghost predicate Ready(s: State, id: nat, k: Key) {
    && id !in s.handlers && k in s.bound && k !in s.locks
    && Usable(TrimKey(k)) && !IsGated(s.store, TrimKey(k))
  }

  predicate HasCompleted(store: Store, k: Key, e: string) {
    var events := Events(Lookup(store, k));
    IndexOf(events, e) < |events| && events[IndexOf(events, e)].status.Completed?
  }

  /** Taking the lock and recording a delivery, in one go. */
  function Taken(s: State, id: nat, k: Key, d: Delivery): State {
    var op := Deliver(k, d.eventId, d.deliveryId, d.payload, "");
    s.(handlers := s.handlers[id := Handler(k, d, OnFile)], locks := s.locks[k := id],
       store := Apply(s.store, op), ops := s.ops + [op])
  }

  function TakeUp(id: nat, k: Key, d: Delivery): seq<Action> {
    [Receive(id, k, d)] + ([Lock(id)] + ([Record(id, "", true)] + []))
  }

  /** An event that is not completed is let through. */
  lemma ReadyTakesUp(s: State, id: nat, k: Key, d: Delivery)
    requires Ready(s, id, k) && d.sessionId == k.session && Trim(d.eventId) != ""
    requires !HasCompleted(s.store, TrimKey(k), Trim(d.eventId))
    ensures Possible(s, TakeUp(id, k, d)) && Exec(s, TakeUp(id, k, d)) == Taken(s, id, k, d)
  {
    var s1 := Step(s, Receive(id, k, d));
    LockAndRecord(s, s1, id, k, d);
    Prepend(s, Receive(id, k, d), [Lock(id)] + ([Record(id, "", true)] + []));
  }

  lemma LockAndRecord(s: State, s1: State, id: nat, k: Key, d: Delivery)
    requires Ready(s, id, k) && Trim(d.eventId) != "" && !HasCompleted(s.store, TrimKey(k), Trim(d.eventId))
    requires s1 == s.(handlers := s.handlers[id := Handler(k, d, Waiting)])
    ensures var rest := [Lock(id)] + ([Record(id, "", true)] + []);
            Possible(s1, rest) && Exec(s1, rest) == Taken(s, id, k, d)
  {
    var s2 := Step(s1, Lock(id));
    RecordLetsThrough(s2, id);
    SetThrice(s.handlers, id, Handler(k, d, Waiting), Handler(k, d, Locked), Handler(k, d, OnFile));
    Prepend(s2, Record(id, "", true), []);
    Prepend(s1, Lock(id), [Record(id, "", true)] + []);
  }

  lemma SetThrice(handlers: map<nat, Handler>, id: nat, a: Handler, b: Handler, c: Handler)
    ensures handlers[id := a][id := b][id := c] == handlers[id := c]
  {
  }

  lemma RecordLetsThrough(s: State, id: nat)
    requires InPhase(s, id, (p: Phase) => p.Locked?)
    requires var h := s.handlers[id];
             && Usable(TrimKey(h.key)) && !IsGated(s.store, TrimKey(h.key)) && Trim(h.delivery.eventId) != ""
             && !HasCompleted(s.store, TrimKey(h.key), Trim(h.delivery.eventId))
    ensures var h, d := s.handlers[id], s.handlers[id].delivery;
            RecordOrGate(s, id, "", true)
            == MoveTo(Mutate(s, Deliver(h.key, d.eventId, d.deliveryId, d.payload, ""), true), id, OnFile)
  {
    var k := TrimKey(s.handlers[id].key);
    assert Events(Lookup(s.store, k)) == Ensured(s.store, k, "").events;
    assert !Gated(Ensured(s.store, k, ""));
  }

  lemma ReadyCanWake(s: State, id: nat, k: Key)
    requires Ready(s, id, k)
    ensures CanWake(s, k)
  {
    var e := FreshEvent(Events(Lookup(s.store, TrimKey(k))), {});
    DeliveredCanWake(s, id, k, Delivery("", e, "", k.session, ""));
  }

  lemma DeliveredCanWake(s: State, id: nat, k: Key, d: Delivery)
    requires Ready(s, id, k) && d.sessionId == k.session && Trim(d.eventId) != ""
    requires !HasCompleted(s.store, TrimKey(k), Trim(d.eventId))
    ensures CanWake(s, k)
  {
    ReadyTakesUp(s, id, k, d);
    OnFileCanWake(Taken(s, id, k, d), id, k);
    NoneResumesUp(id, k, d);
    WakesAfterAll(s, TakeUp(id, k, d), k);
  }

  lemma {:induction false} WakesAfterAll(s: State, actions: seq<Action>, k: Key)
    requires Possible(s, actions) && CanWake(Exec(s, actions), k)
    requires NoneResumes(actions)
    ensures CanWake(s, k)
    decreases |actions|
  {
    if actions != [] {
      WakesAfterAll(Step(s, actions[0]), actions[1..], k);
      WakesAfter(s, actions[0], k);
    }
  }

  /** Any delivery for a free binding can be put on file. */
  lemma Files(s: State, id: nat, k: Key, d: Delivery) returns (actions: seq<Action>)
    requires id !in s.handlers && k in s.bound && k !in s.locks && Usable(TrimKey(k))
    requires d.sessionId == k.session && Trim(d.eventId) != ""
    ensures Possible(s, actions) && NoneResumes(actions) && Filed(s, Exec(s, actions), k, d)
  {
    actions := TakeUp(id, k, d);
    var s2 := Step(Step(s, Receive(id, k, d)), Lock(id));
    LocksUp(s, s2, id, k, d);
    RecordFiles(s2, id);
    LeavesOthers(s, s2, RecordOrGate(s2, id, "", true), id);
    InThree(s, Receive(id, k, d), Lock(id), Record(id, "", true));
    NoneResumesUp(id, k, d);
  }

  lemma LocksUp(s: State, s2: State, id: nat, k: Key, d: Delivery)
    requires id !in s.handlers && k in s.bound && k !in s.locks && d.sessionId == k.session
    requires s2 == Step(Step(s, Receive(id, k, d)), Lock(id))
    ensures s2 == s.(handlers := s.handlers[id := Handler(k, d, Locked)], locks := s.locks[k := id])
  {
    assert s2.handlers == s.handlers[id := Handler(k, d, Waiting)][id := Handler(k, d, Locked)];
  }

  lemma NoneResumesUp(id: nat, k: Key, d: Delivery)
    ensures NoneResumes(TakeUp(id, k, d))
  {
  }

  /** The event is in the stored session, and every handler there was stands. */
  ghost predicate Filed(s: State, t: State, k: Key, d: Delivery) {
    var events := Events(Lookup(t.store, TrimKey(k)));
    && t.bound == s.bound && IndexOf(events, Trim(d.eventId)) < |events| && OthersAre(s, t)
  }

  ghost predicate OthersAre(s: State, t: State) {
    forall id :: id in s.handlers ==> id in t.handlers && t.handlers[id] == s.handlers[id]
  }

  lemma LeavesOthers(s: State, s2: State, s3: State, id: nat)
    requires id !in s.handlers && s3.handlers.Keys == s2.handlers.Keys
    requires forall other :: other in s.handlers ==> other in s2.handlers && s2.handlers[other] == s.handlers[other]
    requires forall other :: other in s2.handlers && other != id ==> s3.handlers[other] == s2.handlers[other]
    ensures OthersAre(s, s3)
  {
  }

  lemma RecordFiles(s: State, id: nat)
    requires InPhase(s, id, (p: Phase) => p.Locked?)
    requires Usable(TrimKey(s.handlers[id].key)) && Trim(s.handlers[id].delivery.eventId) != ""
    ensures var t, h := RecordOrGate(s, id, "", true), s.handlers[id];
            var events := Events(Lookup(t.store, TrimKey(h.key)));
            && IndexOf(events, Trim(h.delivery.eventId)) < |events|
            && t.bound == s.bound && t.handlers.Keys == s.handlers.Keys
            && forall other :: other in s.handlers && other != id ==> t.handlers[other] == s.handlers[other]
  {
    var h, d := s.handlers[id], s.handlers[id].delivery;
    RecordedIsThere(s.store, h.key, d.eventId, d.deliveryId, d.payload);
  }

  lemma RecordedIsThere(store: Store, k: Key, e: string, d: string, p: string)
    requires Usable(TrimKey(k)) && Trim(e) != ""
    ensures RecordDelivery(store, k, e, d, p, "").Ok?
    ensures var events := Events(Lookup(RecordDelivery(store, k, e, d, p, "").value.0, TrimKey(k)));
            IndexOf(events, Trim(e)) < |events|
  {
    var op := Deliver(k, e, d, p, "");
    RecordedIsPending(store, op);
  }
}
