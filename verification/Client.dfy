/** The client's receive loop: which deliveries it hands to a handler, and the
    one acknowledgement each of them leads to. */
module Client {
  import opened Common
  import opened Protocol

  datatype Body =
    | Welcome(deviceId: string)
    | EventDeliver(delivery: Delivery)
    | HeartbeatPing
    | SessionBound
    | PermissionRequest
    | ErrorMessage
    | Undecodable
    | Unexpected

  /** A message as read, whether the `Receive` callback takes it, and whether the
      binds or the pong that it calls for can be written. */
  datatype Incoming = Incoming(body: Body, callbackOk: bool, replyOk: bool)

  datatype Options = Options(
    deviceId: string,
    sessions: seq<string>,
    session: string,
    once: bool,
    concurrent: bool,
    stopAfterPermissionRequest: bool,
    handles: bool)

  datatype ClientError =
    | Invalid | WrongDevice | CallbackFailed | TooEarly | MissingIds | WrongTarget | UnexpectedAction
    | ReadFailed | HelloNotWritten | ReplyNotWritten | AckNotWritten

  /** How a connection ends; reading always fails once nothing more arrives. */
  datatype End = Stopped | FailedWith(error: ClientError)

  /** What the handler of the i-th started delivery does: whether it succeeds, how
      many messages have been read by the time it is done, and whether its
      acknowledgement can be written on an open connection. */
  datatype Handlers = Handlers(ok: nat -> bool, done: nat -> nat, sent: nat -> bool)

  /** The deliveries handed to a handler, in order, the number of messages read,
      and how the connection ends. */
  datatype Course = Course(started: seq<Delivery>, read: nat, end: End)

  function SessionRegistrations(o: Options): seq<string> {
    if o.sessions != [] then o.sessions else if o.session == "" then [] else [o.session]
  }

  /** validateTarget: this device, and a registered session when there are any. */
  predicate ValidTarget(o: Options, d: Delivery) {
    var registered := SessionRegistrations(o);
    && d.deviceId == o.deviceId
    && (registered == [] || exists i :: 0 <= i < |registered| && registered[i] == d.sessionId)
  }

  /** Why a message ends the connection before a handler is started, if it does. */
  function Refused(o: Options, welcomed: bool, m: Incoming): Option<ClientError> {
    match m.body
    case Undecodable => Some(Invalid)
    case Unexpected => Some(UnexpectedAction)
    case HeartbeatPing => if m.replyOk then None else Some(ReplyNotWritten)
    case Welcome(device) =>
      if device != o.deviceId then Some(WrongDevice)
      else if !m.callbackOk then Some(CallbackFailed)
      else if SessionRegistrations(o) != [] && !m.replyOk then Some(ReplyNotWritten)
      else None
    case EventDeliver(d) =>
      if !welcomed then Some(TooEarly)
      else if !m.callbackOk then Some(CallbackFailed)
      else if d.deliveryId == "" || d.eventId == "" then Some(MissingIds)
      else if !ValidTarget(o, d) then Some(WrongTarget)
      else None
    case _ => if !m.callbackOk then Some(CallbackFailed) else None
  }

  /** An accepted message after which the client is done. */
  predicate Last(o: Options, m: Incoming) {
    (m.body.EventDeliver? && o.once) || (m.body.PermissionRequest? && o.stopAfterPermissionRequest)
  }

  /** The receive loop itself runs the handlers, one at a time. */
  predicate Inline(o: Options) {
    !o.concurrent || o.once
  }

  /** One of the handlers below `started` is done by now, could not write its
      acknowledgement, and has closed the connection. */
  predicate Broken(h: Handlers, started: nat, read: nat) {
    exists i :: 0 <= i < started && h.done(i) <= read && !h.sent(i)
  }

  /** The rest of a connection on which `read` messages were read and `started`
      handlers were started. */
  function Rest(o: Options, h: Handlers, inbox: seq<Incoming>, read: nat, started: nat, welcomed: bool): (c: Course)
    requires read <= |inbox|
    ensures c.read <= |inbox|
    decreases |inbox| - read
  {
    if read == |inbox| || (!Inline(o) && Broken(h, started, read)) then Course([], read, FailedWith(ReadFailed))
    else
      var m := inbox[read];
      var refusal := Refused(o, welcomed, m);
      var own := if m.body.EventDeliver? then [m.body.delivery] else [];
      if refusal.Some? then Course([], read + 1, FailedWith(refusal.value))
      else if own != [] && Inline(o) && !h.sent(started) then Course(own, read + 1, FailedWith(AckNotWritten))
      else if Last(o, m) then Course(own, read + 1, Stopped)
      else After(own, Rest(o, h, inbox, read + 1, started + |own|, welcomed || m.body.Welcome?))
  }

  /** A course that begins with these deliveries. */
  function After(started: seq<Delivery>, rest: Course): Course {
    rest.(started := started + rest.started)
  }

  /** The whole connection: the hello comes first. */
  function Conversation(o: Options, h: Handlers, helloOk: bool, inbox: seq<Incoming>): Course {
    if !helloOk then Course([], 0, FailedWith(HelloNotWritten)) else Rest(o, h, inbox, 0, 0, false)
  }

  /** processDelivery's acknowledgement, given whether the handler succeeded. */
  function AckOf(o: Options, d: Delivery, ok: bool): Ack {
    Ack(d.deliveryId, d.eventId, if !o.handles then AckAccepted else if ok then AckCompleted else AckFailed)
  }

  /** An acknowledgement on the wire, and the handler that wrote it. */
  datatype Answer = Answer(handler: nat, ack: Ack)

  function Answering(answers: seq<Answer>): set<nat> {
    set a | a in answers :: a.handler
  }

  /** Every answer is that of a started handler, and none has two. */
  ghost predicate Proper(o: Options, h: Handlers, started: seq<Delivery>, answers: seq<Answer>) {
    && (forall j :: 0 <= j < |answers| ==>
          && answers[j].handler < |started|
          && answers[j].ack == AckOf(o, started[answers[j].handler], h.ok(answers[j].handler)))
    && (forall i, j :: 0 <= i < j < |answers| ==> answers[i].handler != answers[j].handler)
  }

  /** Handler `i` gets its acknowledgement out: the write succeeds, and the
      connection has not ended by the time it is done. */
  predicate InTime(o: Options, h: Handlers, c: Course, i: nat) {
    h.sent(i) && (Inline(o) || h.done(i) <= c.read)
  }

  lemma AnsweringMore(answers: seq<Answer>, a: Answer)
    ensures Answering(answers + [a]) == Answering(answers) + {a.handler}
  {
    forall x | x in Answering(answers) + {a.handler} ensures x in Answering(answers + [a]) {
      if x == a.handler {
        assert (answers + [a])[|answers|] == a;
      } else {
        var b :| b in answers && b.handler == x;
        assert b in answers + [a];
      }
    }
  }

  /** The handlers that are done by now return, in any order, and each writes its
      acknowledgement if it can. */
  method Settle(o: Options, h: Handlers, started: seq<Delivery>, read: nat, running: set<nat>, answers: seq<Answer>)
    returns (left: set<nat>, more: seq<Answer>)
    requires Proper(o, h, started, answers) && running !! Answering(answers)
    requires forall i :: i in running ==> i < |started|
    ensures Proper(o, h, started, more)
    ensures forall i :: i in left <==> i in running && h.done(i) > read
    ensures forall i: nat :: i in Answering(more) <==>
              i in Answering(answers) || (i in running && h.done(i) <= read && h.sent(i))
    ensures running == {} ==> more == answers
  {
    left, more := running, answers;
    var ready := set i | i in running && h.done(i) <= read;
    while ready != {}
      invariant Proper(o, h, started, more)
      invariant ready <= left <= running
      invariant forall i :: i in left ==> (i in ready <==> h.done(i) <= read)
      invariant forall i: nat :: i in Answering(more) <==>
                  i in Answering(answers) || (i in running && i !in left && h.sent(i))
      invariant forall i :: i in running && h.done(i) > read ==> i in left
      invariant running == {} ==> more == answers
      decreases |ready|
    {
      var i :| i in ready;
      if h.sent(i) {
        AnsweringMore(more, Answer(i, AckOf(o, started[i], h.ok(i))));
        ProperMore(o, h, started, more, i);
        more := more + [Answer(i, AckOf(o, started[i], h.ok(i)))];
      }
      left, ready := left - {i}, ready - {i};
    }
  }

  lemma ProperMore(o: Options, h: Handlers, started: seq<Delivery>, answers: seq<Answer>, i: nat)
    requires Proper(o, h, started, answers) && i < |started| && i !in Answering(answers)
    ensures Proper(o, h, started, answers + [Answer(i, AckOf(o, started[i], h.ok(i)))])
  {
    forall j | 0 <= j < |answers| ensures answers[j].handler != i {
      assert answers[j] in answers;
    }
  }

  lemma ProperLater(o: Options, h: Handlers, started: seq<Delivery>, d: Delivery, answers: seq<Answer>)
    requires Proper(o, h, started, answers)
    ensures Proper(o, h, started + [d], answers) && |started| !in Answering(answers)
  {
  }

  /** After `read` messages: `running` are the handlers that have not returned, and
      of the others exactly those have answered that could. */
  ghost predicate Tracked(o: Options, h: Handlers, n: nat, read: nat, running: set<nat>, answers: seq<Answer>) {
    && (forall i :: i in running ==> i < n)
    && (Inline(o) ==> running == {})
    && (!Inline(o) ==> forall i :: 0 <= i < n && i !in running ==> h.done(i) <= read)
    && (forall i: nat :: i in Answering(answers) <==> i < n && i !in running && h.sent(i))
    && (Inline(o) ==> forall j :: 0 <= j < |answers| ==> answers[j].handler == j)
  }

  lemma StaysTracked(o: Options, h: Handlers, n: nat, read: nat, running: set<nat>, answers: seq<Answer>,
                     left: set<nat>, more: seq<Answer>)
    requires Tracked(o, h, n, read, running, answers)
    requires forall i :: i in left <==> i in running && h.done(i) > read
    requires forall i: nat :: i in Answering(more) <==>
               i in Answering(answers) || (i in running && h.done(i) <= read && h.sent(i))
    requires running == {} ==> more == answers
    ensures Tracked(o, h, n, read, left, more)
  {
  }

  /** Starts the handler of a delivery: beside the loop, or inside it, where a
      failed acknowledgement ends the loop. */
  method Begin(o: Options, h: Handlers, started: seq<Delivery>, read: nat, d: Delivery,
               running: set<nat>, answers: seq<Answer>)
    returns (active: set<nat>, more: seq<Answer>, failed: bool)
    requires Proper(o, h, started, answers) && Tracked(o, h, |started|, read, running, answers)
    requires Inline(o) ==> |answers| == |started|
    ensures Proper(o, h, started + [d], more) && Tracked(o, h, |started| + 1, read, active, more)
    ensures failed <==> Inline(o) && !h.sent(|started|)
    ensures Inline(o) && !failed ==> |more| == |started| + 1
  {
    ProperLater(o, h, started, d, answers);
    active, more, failed := running, answers, false;
    if !Inline(o) {
      active := active + {|started|};
    } else if !h.sent(|started|) {
      failed := true;
    } else {
      var answer := Answer(|started|, AckOf(o, d, h.ok(|started|)));
      ProperMore(o, h, started + [d], answers, |started|);
      AnsweringMore(answers, answer);
      more := more + [answer];
    }
  }

  /** What one more message makes of the rest of a connection. */
  lemma RestStep(o: Options, h: Handlers, inbox: seq<Incoming>, read: nat, started: seq<Delivery>, welcomed: bool)
    requires read < |inbox| && (Inline(o) || !Broken(h, |started|, read))
    ensures var m := inbox[read];
            var all := if m.body.EventDeliver? then started + [m.body.delivery] else started;
            var refusal := Refused(o, welcomed, m);
            After(started, Rest(o, h, inbox, read, |started|, welcomed))
            == if refusal.Some? then Course(started, read + 1, FailedWith(refusal.value))
               else if m.body.EventDeliver? && Inline(o) && !h.sent(|started|)
                 then Course(all, read + 1, FailedWith(AckNotWritten))
               else if Last(o, m) then Course(all, read + 1, Stopped)
               else After(all, Rest(o, h, inbox, read + 1, |all|, welcomed || m.body.Welcome?))
  {
    var m := inbox[read];
    var own := if m.body.EventDeliver? then [m.body.delivery] else [];
    var rest := Rest(o, h, inbox, read + 1, |started| + |own|, welcomed || m.body.Welcome?);
    assert started + [] == started;
    assert started + (own + rest.started) == (started + own) + rest.started;
  }

  /** Nothing more is read. */
  lemma RestEnds(o: Options, h: Handlers, inbox: seq<Incoming>, read: nat, started: seq<Delivery>, welcomed: bool)
    requires read == |inbox| || (read < |inbox| && !Inline(o) && Broken(h, |started|, read))
    ensures After(started, Rest(o, h, inbox, read, |started|, welcomed))
            == Course(started, read, FailedWith(ReadFailed))
  {
    assert started + [] == started;
  }

  /** One message: either it ends the connection, or the loop goes on. */
  method Turn(o: Options, h: Handlers, inbox: seq<Incoming>, read: nat, before: seq<Delivery>, welcomed: bool,
              running: set<nat>, answers: seq<Answer>)
    returns (end: Option<End>, started: seq<Delivery>, active: set<nat>, more: seq<Answer>)
    requires read < |inbox| && (Inline(o) || !Broken(h, |before|, read))
    requires Proper(o, h, before, answers) && Tracked(o, h, |before|, read, running, answers)
    requires Inline(o) ==> |answers| == |before|
    ensures After(before, Rest(o, h, inbox, read, |before|, welcomed))
            == if end.Some? then Course(started, read + 1, end.value)
               else After(started, Rest(o, h, inbox, read + 1, |started|, welcomed || inbox[read].body.Welcome?))
    ensures Proper(o, h, started, more) && Tracked(o, h, |started|, read + 1, active, more)
    ensures Inline(o) && end.None? ==> |more| == |started|
  {
    RestStep(o, h, inbox, read, before, welcomed);
    started, active, more := before, running, answers;
    var m := inbox[read];
    var refusal := Refused(o, welcomed, m);
    if refusal.Some? { return Some(FailedWith(refusal.value)), started, active, more; }
    if m.body.EventDeliver? {
      var failed;
      active, more, failed := Begin(o, h, before, read + 1, m.body.delivery, running, answers);
      started := before + [m.body.delivery];
      if failed { return Some(FailedWith(AckNotWritten)), started, active, more; }
    }
    if Last(o, m) { return Some(Stopped), started, active, more; }
    end := None;
  }

  /** The receive loop, up to the end of the connection. */
  method Receive(o: Options, h: Handlers, inbox: seq<Incoming>)
    returns (course: Course, running: set<nat>, answers: seq<Answer>)
    ensures course == Rest(o, h, inbox, 0, 0, false)
    ensures Proper(o, h, course.started, answers)
    ensures Tracked(o, h, |course.started|, course.read, running, answers)
  {
    var welcomeReceived := false;
    var started: seq<Delivery>, read := [], 0;
    running, answers := {}, [];
    ghost var whole := Rest(o, h, inbox, 0, 0, false);
    while true
      invariant read <= |inbox|
      invariant whole == After(started, Rest(o, h, inbox, read, |started|, welcomeReceived))
      invariant Proper(o, h, started, answers) && Tracked(o, h, |started|, read, running, answers)
      invariant Inline(o) ==> |answers| == |started|
      decreases |inbox| - read
    {
      var left, more := Settle(o, h, started, read, running, answers);
      StaysTracked(o, h, |started|, read, running, answers, left, more);
      running, answers := left, more;
      if read == |inbox| || (!Inline(o) && Broken(h, |started|, read)) {
        RestEnds(o, h, inbox, read, started, welcomeReceived);
        return Course(started, read, FailedWith(ReadFailed)), running, answers;
      }
      var end;
      end, started, running, answers := Turn(o, h, inbox, read, started, welcomeReceived, running, answers);
      read := read + 1;
      if end.Some? { return Course(started, read, end.value), running, answers; }
      welcomeReceived := welcomeReceived || inbox[read - 1].body.Welcome?;
    }
  }

  /** processing.Wait(): the handlers that are left return one by one. Their context
      is cancelled and the connection closed, so none of them writes anything. */
  method Wait(running: set<nat>, before: set<nat>) returns (returned: set<nat>)
    ensures returned == before + running
  {
    returned := before;
    var left := running;
    while left != {}
      invariant left <= running && returned == before + (running - left)
      decreases |left|
    {
      var i :| i in left;
      left, returned := left - {i}, returned + {i};
    }
  }

  /** Run: says hello, reads until the connection ends, cancels what is still
      running, closes, and waits. Exactly the handlers that are done in time have
      written their acknowledgement, each of them once. */
  method Run(o: Options, h: Handlers, helloOk: bool, inbox: seq<Incoming>)
    returns (course: Course, answers: seq<Answer>, returned: set<nat>)
    ensures course == Conversation(o, h, helloOk, inbox)
    ensures Proper(o, h, course.started, answers)
    ensures forall i: nat :: i in Answering(answers) <==> i < |course.started| && InTime(o, h, course, i)
    ensures Inline(o) ==> forall j :: 0 <= j < |answers| ==> answers[j].handler == j
    ensures forall i: nat :: i in returned <==> 0 <= i < |course.started|
  {
    if !helloOk { return Course([], 0, FailedWith(HelloNotWritten)), [], {}; }
    var running;
    course, running, answers := Receive(o, h, inbox);
    running, answers := Settle(o, h, course.started, course.read, running, answers);
    returned := set i | 0 <= i < |course.started| && i !in running;
    returned := Wait(running, returned);
  }

  // ------------------------------------------------------------- main results

  ghost predicate WelcomedBefore(o: Options, inbox: seq<Incoming>, n: nat) {
    exists j :: 0 <= j < n && j < |inbox| && inbox[j].body == Welcome(o.deviceId)
  }

  lemma WelcomedOn(o: Options, inbox: seq<Incoming>, read: nat, welcomed: bool)
    requires read < |inbox| && (welcomed ==> WelcomedBefore(o, inbox, read))
    requires Refused(o, welcomed, inbox[read]).None?
    ensures welcomed || inbox[read].body.Welcome? ==> WelcomedBefore(o, inbox, read + 1)
  {
    if inbox[read].body.Welcome? { assert inbox[read].body == Welcome(o.deviceId); }
  }

  lemma TargetIsRegistered(o: Options, d: Delivery)
    requires ValidTarget(o, d)
    ensures d.deviceId == o.deviceId
    ensures if o.sessions != [] then d.sessionId in o.sessions else o.session != "" ==> d.sessionId == o.session
  {
  }

  /** A handler is only ever started for a delivery that was received after the
      provider welcomed this device, that names this device and a registered
      session, and that carries both ids. */
  lemma {:induction false} StartedDeliveriesAreValid(
    o: Options, h: Handlers, inbox: seq<Incoming>, read: nat, before: nat, welcomed: bool, i: nat)
    returns (n: nat)
    requires read <= |inbox| && (welcomed ==> WelcomedBefore(o, inbox, read))
    requires i < |Rest(o, h, inbox, read, before, welcomed).started|
    ensures var d := Rest(o, h, inbox, read, before, welcomed).started[i];
            && read <= n < |inbox| && inbox[n].body == EventDeliver(d) && WelcomedBefore(o, inbox, n)
            && d.deviceId == o.deviceId && d.deliveryId != "" && d.eventId != ""
            && (if o.sessions != [] then d.sessionId in o.sessions else o.session != "" ==> d.sessionId == o.session)
    decreases |inbox| - read
  {
    var m := inbox[read];
    if m.body.EventDeliver? && i == 0 {
      n := read;
      TargetIsRegistered(o, m.body.delivery);
    } else {
      var own := if m.body.EventDeliver? then 1 else 0;
      WelcomedOn(o, inbox, read, welcomed);
      n := StartedDeliveriesAreValid(o, h, inbox, read + 1, before + own, welcomed || m.body.Welcome?, i - own);
    }
  }
}
