/** What a connection comes to, said of the messages that arrive and of the client's
    options: which message ends it and why, and which deliveries are handled. */
module ClientMeaning {
  import opened Common
  import opened Protocol
  import opened Client

  /** A delivery for this device and, when sessions are registered, for one of them. */
  predicate ForUs(o: Options, d: Delivery) {
    && d.deviceId == o.deviceId
    && if o.sessions != [] then d.sessionId in o.sessions else o.session != "" ==> d.sessionId == o.session
  }

  ghost predicate Welcomed(inbox: seq<Incoming>, n: nat) {
    exists j :: 0 <= j < n && j < |inbox| && inbox[j].body.Welcome?
  }

  /** What is wrong with the n-th message, given that all before it were taken. */
  ghost function Objection(o: Options, inbox: seq<Incoming>, n: nat): Option<ClientError>
    requires n < |inbox|
  {
    var m := inbox[n];
    match m.body
    case Undecodable => Some(Invalid)
    case Unexpected => Some(UnexpectedAction)
    case HeartbeatPing => if m.replyOk then None else Some(ReplyNotWritten)
    case Welcome(device) =>
      if device != o.deviceId then Some(WrongDevice)
      else if !m.callbackOk then Some(CallbackFailed)
      else if (o.sessions != [] || o.session != "") && !m.replyOk then Some(ReplyNotWritten)
      else None
    case EventDeliver(d) =>
      if !Welcomed(inbox, n) then Some(TooEarly)
      else if !m.callbackOk then Some(CallbackFailed)
      else if d.deliveryId == "" || d.eventId == "" then Some(MissingIds)
      else if !ForUs(o, d) then Some(WrongTarget)
      else None
    case SessionBound => if m.callbackOk then None else Some(CallbackFailed)
    case PermissionRequest => if m.callbackOk then None else Some(CallbackFailed)
    case ErrorMessage => if m.callbackOk then None else Some(CallbackFailed)
  }

  /** The deliveries among these messages, in order. */
  function DeliveriesIn(inbox: seq<Incoming>): seq<Delivery> {
    if inbox == [] then []
    else
      var last := inbox[|inbox| - 1].body;
      DeliveriesIn(inbox[..|inbox| - 1]) + if last.EventDeliver? then [last.delivery] else []
  }

  /** The loop runs its handlers itself and cannot write the acknowledgement of the
      delivery that is the n-th message. */
  predicate AckFails(o: Options, h: Handlers, inbox: seq<Incoming>, n: nat)
    requires n < |inbox|
  {
    inbox[n].body.EventDeliver? && (!o.concurrent || o.once) && !h.sent(|DeliveriesIn(inbox[..n])|)
  }

  /** The client is done with the n-th message, if that is taken. */
  predicate IsEnough(o: Options, inbox: seq<Incoming>, n: nat)
    requires n < |inbox|
  {
    (inbox[n].body.EventDeliver? && o.once) || (inbox[n].body.PermissionRequest? && o.stopAfterPermissionRequest)
  }

  /** A handler beside the loop has closed the connection by the time `n` messages are read. */
  ghost predicate ClosedBy(o: Options, h: Handlers, inbox: seq<Incoming>, n: nat)
    requires n <= |inbox|
  {
    && o.concurrent && !o.once
    && exists i :: 0 <= i < |DeliveriesIn(inbox[..n])| && h.done(i) <= n && !h.sent(i)
  }

  ghost predicate GoesOn(o: Options, h: Handlers, inbox: seq<Incoming>, n: nat)
    requires n < |inbox|
  {
    Objection(o, inbox, n) == None && !AckFails(o, h, inbox, n) && !IsEnough(o, inbox, n)
  }

  /** The first `n` messages are read, and none of them ends the connection. */
  ghost predicate AllTaken(o: Options, h: Handlers, inbox: seq<Incoming>, n: nat) {
    n <= |inbox| && forall j :: 0 <= j < n ==> GoesOn(o, h, inbox, j) && !ClosedBy(o, h, inbox, j)
  }

  /** How the connection goes: nothing more can be read, or the last message that was
      read ends it, with the right reason. Every delivery that was taken is handled. */
  ghost predicate IsCourse(o: Options, h: Handlers, inbox: seq<Incoming>, c: Course) {
    if c.end == FailedWith(ReadFailed) then
      && AllTaken(o, h, inbox, c.read)
      && (c.read == |inbox| || ClosedBy(o, h, inbox, c.read))
      && c.started == DeliveriesIn(inbox[..c.read])
    else
      && 0 < c.read <= |inbox|
      && AllTaken(o, h, inbox, c.read - 1) && !ClosedBy(o, h, inbox, c.read - 1)
      && EndsWith(o, h, inbox, c.read - 1, c)
  }

  /** The n-th message ends the connection. */
  ghost predicate EndsWith(o: Options, h: Handlers, inbox: seq<Incoming>, n: nat, c: Course)
    requires n < |inbox|
  {
    var objection := Objection(o, inbox, n);
    if objection.Some? then c.end == FailedWith(objection.value) && c.started == DeliveriesIn(inbox[..n])
    else
      && c.started == DeliveriesIn(inbox[..n + 1])
      && if AckFails(o, h, inbox, n) then c.end == FailedWith(AckNotWritten)
         else IsEnough(o, inbox, n) && c.end == Stopped
  }

  lemma DeliveriesNext(inbox: seq<Incoming>, n: nat)
    requires n < |inbox|
    ensures DeliveriesIn(inbox[..n + 1])
            == DeliveriesIn(inbox[..n]) + if inbox[n].body.EventDeliver? then [inbox[n].body.delivery] else []
  {
    assert inbox[..n + 1][..n] == inbox[..n];
  }

  lemma TargetIsOurs(o: Options, d: Delivery)
    ensures ValidTarget(o, d) <==> ForUs(o, d)
  {
    var registered := SessionRegistrations(o);
    assert d.sessionId in registered <==> exists i :: 0 <= i < |registered| && registered[i] == d.sessionId;
  }

  lemma RefusedIsObjection(o: Options, inbox: seq<Incoming>, n: nat)
    requires n < |inbox|
    ensures Refused(o, Welcomed(inbox, n), inbox[n]) == Objection(o, inbox, n)
  {
    if inbox[n].body.EventDeliver? { TargetIsOurs(o, inbox[n].body.delivery); }
  }

  lemma WelcomedNext(inbox: seq<Incoming>, n: nat)
    requires n < |inbox|
    ensures Welcomed(inbox, n + 1) <==> Welcomed(inbox, n) || inbox[n].body.Welcome?
  {
  }

  /** The course of a connection of which `read` messages were read without ending it. */
  ghost function CourseFrom(o: Options, h: Handlers, inbox: seq<Incoming>, read: nat): Course
    requires read <= |inbox|
  {
    var started := DeliveriesIn(inbox[..read]);
    After(started, Rest(o, h, inbox, read, |started|, Welcomed(inbox, read)))
  }

  lemma OneMore(o: Options, h: Handlers, inbox: seq<Incoming>, read: nat)
    requires read < |inbox| && !ClosedBy(o, h, inbox, read)
    ensures CourseFrom(o, h, inbox, read)
            == if Objection(o, inbox, read).Some?
               then Course(DeliveriesIn(inbox[..read]), read + 1, FailedWith(Objection(o, inbox, read).value))
               else if AckFails(o, h, inbox, read)
               then Course(DeliveriesIn(inbox[..read + 1]), read + 1, FailedWith(AckNotWritten))
               else if IsEnough(o, inbox, read) then Course(DeliveriesIn(inbox[..read + 1]), read + 1, Stopped)
               else CourseFrom(o, h, inbox, read + 1)
  {
    RestStep(o, h, inbox, read, DeliveriesIn(inbox[..read]), Welcomed(inbox, read));
    RefusedIsObjection(o, inbox, read);
    DeliveriesNext(inbox, read);
    WelcomedNext(inbox, read);
  }

  lemma NoMore(o: Options, h: Handlers, inbox: seq<Incoming>, read: nat)
    requires read == |inbox| || (read < |inbox| && ClosedBy(o, h, inbox, read))
    ensures CourseFrom(o, h, inbox, read) == Course(DeliveriesIn(inbox[..read]), read, FailedWith(ReadFailed))
  {
    RestEnds(o, h, inbox, read, DeliveriesIn(inbox[..read]), Welcomed(inbox, read));
  }

  lemma ObjectionIsNoReadFailure(o: Options, inbox: seq<Incoming>, n: nat)
    requires n < |inbox|
    ensures Objection(o, inbox, n) != Some(ReadFailed)
  {
  }

  lemma TakenNext(o: Options, h: Handlers, inbox: seq<Incoming>, n: nat)
    requires n < |inbox| && AllTaken(o, h, inbox, n) && GoesOn(o, h, inbox, n) && !ClosedBy(o, h, inbox, n)
    ensures AllTaken(o, h, inbox, n + 1)
  {
  }

  lemma {:induction false} RestMeans(o: Options, h: Handlers, inbox: seq<Incoming>, read: nat)
    requires AllTaken(o, h, inbox, read)
    ensures IsCourse(o, h, inbox, CourseFrom(o, h, inbox, read))
    decreases |inbox| - read
  {
    if read == |inbox| || ClosedBy(o, h, inbox, read) {
      NoMore(o, h, inbox, read);
    } else {
      OneMore(o, h, inbox, read);
      if GoesOn(o, h, inbox, read) {
        TakenNext(o, h, inbox, read);
        RestMeans(o, h, inbox, read + 1);
      } else {
        ObjectionIsNoReadFailure(o, inbox, read);
      }
    }
  }

  /** How a connection goes, for all messages, options and handlers. It is the only
      course with these properties, as `CourseIsUnique` says. */
  lemma ConversationMeans(o: Options, h: Handlers, inbox: seq<Incoming>)
    ensures IsCourse(o, h, inbox, Conversation(o, h, true, inbox))
    ensures Conversation(o, h, false, inbox) == Course([], 0, FailedWith(HelloNotWritten))
  {
    RestMeans(o, h, inbox, 0);
    var rest := Rest(o, h, inbox, 0, 0, false);
    assert DeliveriesIn(inbox[..0]) == [] && [] + rest.started == rest.started;
  }

  lemma CourseIsUnique(o: Options, h: Handlers, inbox: seq<Incoming>, c: Course, d: Course)
    requires IsCourse(o, h, inbox, c) && IsCourse(o, h, inbox, d)
    ensures c == d
  {
    if c.read < d.read { EndsEarlier(o, h, inbox, c, d); }
    if d.read < c.read { EndsEarlier(o, h, inbox, d, c); }
  }

  lemma EndsEarlier(o: Options, h: Handlers, inbox: seq<Incoming>, c: Course, d: Course)
    requires IsCourse(o, h, inbox, c) && IsCourse(o, h, inbox, d)
    ensures c.read >= d.read
  {
  }

  /** A delivery that comes after the welcome, that the callback takes, that carries
      both ids and is for us, is handed to a handler when the loop reads it. */
  lemma DeliveryIsStarted(o: Options, h: Handlers, inbox: seq<Incoming>, n: nat) returns (i: nat)
    requires n < Conversation(o, h, true, inbox).read <= |inbox|
    requires inbox[n].body.EventDeliver? && inbox[n].callbackOk && Welcomed(inbox, n)
    requires var d := inbox[n].body.delivery; d.deliveryId != "" && d.eventId != "" && ForUs(o, d)
    ensures var c := Conversation(o, h, true, inbox); i < |c.started| && c.started[i] == inbox[n].body.delivery
  {
    var c := Conversation(o, h, true, inbox);
    ConversationMeans(o, h, inbox);
    i := |DeliveriesIn(inbox[..n])|;
    DeliveriesNext(inbox, n);
    if n + 1 < c.read {
      DeliveriesGrow(inbox, n + 1, c.read);
      DeliveriesGrow(inbox, n + 1, c.read - 1);
    }
  }

  lemma {:induction false} DeliveriesGrow(inbox: seq<Incoming>, m: nat, n: nat)
    requires m <= n <= |inbox|
    ensures DeliveriesIn(inbox[..m]) <= DeliveriesIn(inbox[..n])
    decreases n
  {
    if m < n {
      DeliveriesGrow(inbox, m, n - 1);
      DeliveriesNext(inbox, n - 1);
    }
  }

  /** Each acknowledgement names the delivery and event of its handler, and says
      `accepted` when there is no handler function, else whether the handler succeeded. */
  lemma AnswersMean(o: Options, h: Handlers, started: seq<Delivery>, answers: seq<Answer>, j: nat)
    requires Proper(o, h, started, answers) && j < |answers|
    ensures answers[j].handler < |started|
    ensures var d, ack := started[answers[j].handler], answers[j].ack;
            && ack.deliveryId == d.deliveryId && ack.eventId == d.eventId
            && (ack.status == AckAccepted <==> !o.handles)
            && (ack.status == AckCompleted <==> o.handles && h.ok(answers[j].handler))
            && (ack.status == AckFailed <==> o.handles && !h.ok(answers[j].handler))
  {
  }
}
