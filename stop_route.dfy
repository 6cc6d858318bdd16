/**
 * server/api/traders/stop.post.ts: validate `taskId`, publish
 * `{action: 'stop', taskId}` once subscribed, and wait for `task_stopped`
 * for that task, or any `task_error`, for at most 30 seconds.
 */
module StopRoute {
  import opened Wrappers
  import opened JsValue
  import opened Confirmation

  /** The check on the request body: `taskId` must be a non-empty string. */
  function ValidateStop(taskId: JsValue): (r: Result<string, Failure>)
    ensures r.Ok? <==> taskId.JStr? && taskId.s != ""
    ensures r.Ok? ==> taskId == JStr(r.value)
    ensures r.Err? ==> r.error == HttpError(400, JStr("Missing or invalid taskId"))
  {
    if !Truthy(taskId) || !taskId.JStr? then Err(HttpError(400, JStr("Missing or invalid taskId")))
    else Ok(taskId.s)
  }

  function StopPayload(taskId: string): (p: Payload)
    ensures p.Keys == {"action", "taskId"}
    ensures p["action"] == JStr("stop") && p["taskId"] == JStr(taskId)
  {
    map["action" := JStr("stop"), "taskId" := JStr(taskId)]
  }

  /**
   * The notification handler's choice: `task_stopped` for this task accepts,
   * `task_error` for any task refuses, anything else is ignored.
   */
  function StopVerdict(taskId: string, msg: Message): (v: Verdict)
    ensures v.Accept? <==> msg.event == JStr("task_stopped") && msg.taskId == JStr(taskId)
    ensures v.Refuse? <==> msg.event == JStr("task_error")
    ensures v.Refuse? ==> HttpError(500, v.errorMessage) == BackendFailure(msg)
  {
    if StrictEq(msg.event, JStr("task_stopped")) && StrictEq(msg.taskId, JStr(taskId)) then Accept
    else if StrictEq(msg.event, JStr("task_error")) then Refuse(Or(msg.error, DefaultError))
    else Ignore
  }

  /** A `task_error` refuses the wait whichever task it names, a `task_stopped` only for this one. */
  lemma ErrorsAreNotKeyed(taskId: string, other: string, msg: Message)
    requires taskId != other
    ensures msg.event == JStr("task_error") ==>
      StopVerdict(taskId, msg) == StopVerdict(other, msg) == Refuse(Or(msg.error, DefaultError))
    ensures msg.event == JStr("task_stopped") ==>
      !(StopVerdict(taskId, msg).Accept? && StopVerdict(other, msg).Accept?)
  {
  }

  /** `{ success: confirmation.success ?? true, data: confirmation }` */
  function StopResponse(confirmation: Message): (r: Response)
    ensures r.data == Confirmation(confirmation)
    ensures confirmation.success == JUndefined || confirmation.success == JNull ==> r.success == JBool(true)
    ensures confirmation.success != JUndefined && confirmation.success != JNull ==> r.success == confirmation.success
  {
    Response(Coalesce(confirmation.success, JBool(true)), Confirmation(confirmation))
  }

  /**
   * The route up to the wait: a rejected request gets its 400 before any
   * gate exists, so nothing is subscribed or published for it.
   */
  method HandleStop(taskId: JsValue) returns (r: Result<Gate, Failure>)
    ensures r.Err? <==> ValidateStop(taskId).Err?
    ensures r.Err? ==> r.error == HttpError(400, JStr("Missing or invalid taskId"))
    ensures r.Ok? ==> taskId.JStr? && fresh(r.value) && r.value.Valid() && r.value.Released()
    ensures r.Ok? ==> !r.value.resolved && r.value.setup == Subscribing && r.value.published == None
    ensures r.Ok? ==> r.value.payload == StopPayload(taskId.s)
    ensures r.Ok? ==> forall msg :: r.value.verdict(msg) == StopVerdict(taskId.s, msg)
  {
    var v := ValidateStop(taskId);
    if v.Err? {
      return Err(v.error);
    }
    var g := StartStop(v.value);
    r := Ok(g);
  }

  /** The gate the route waits on. */
  method StartStop(taskId: string) returns (g: Gate)
    ensures fresh(g) && g.Valid() && g.Released()
    ensures g.payload == StopPayload(taskId)
    ensures forall msg :: g.verdict(msg) == StopVerdict(taskId, msg)
    ensures !g.resolved && g.setup == Subscribing && g.published == None
  {
    g := new Gate(StopPayload(taskId), msg => StopVerdict(taskId, msg));
  }

  /**
   * A stop confirmation for another task does not settle the wait; the one
   * for this task does, exactly once: later messages and the timer change
   * nothing, and the subscription is released once.
   */
  method ConfirmationScenario()
  {
    var g := StartStop("T1");
    g.OnSubscribeReturned();
    assert g.published == Some(map["action" := JStr("stop"), "taskId" := JStr("T1")]);
    g.OnPublishReturned();
    g.OnMessage(Message(JStr("task_stopped"), JStr("T2"), JUndefined, JUndefined, JUndefined));
    assert !g.resolved;
    var confirmation := Message(JStr("task_stopped"), JStr("T1"), JUndefined, JUndefined, JUndefined);
    g.OnMessage(confirmation);
    assert g.outcome == Confirmed(confirmation) && g.cleanupCount == 1 && g.timerCleared;
    g.OnMessage(Message(JStr("task_error"), JStr("T1"), JUndefined, JStr("late"), JUndefined));
    g.OnTimeout();
    assert g.outcome == Confirmed(confirmation) && g.cleanupCount == 1;
    assert g.Settled() == Ok(confirmation);
    assert StopResponse(confirmation) == Response(JBool(true), Confirmation(confirmation));
  }

  /** Without a reply the timer rejects with 504 and releases the subscription. */
  method TimeoutScenario()
  {
    var g := StartStop("T1");
    g.OnSubscribeReturned();
    g.OnPublishReturned();
    g.OnTimeout();
    assert g.Settled() == Err(HttpError(504, JStr("Timeout waiting for backend confirmation")));
    assert g.cleanupCount == 1 && !g.timerCleared;
    g.OnMessage(Message(JStr("task_stopped"), JStr("T1"), JUndefined, JUndefined, JUndefined));
    assert g.outcome == Rejected(TimeoutFailure) && g.cleanupCount == 1;
  }

  /**
   * As the route is written: when the timer fires while
   * `subscribeNotifications` is still pending, the wait is rejected with no
   * subscription to release; the subscription is then assigned, the stop
   * command is still published, and nothing ever releases it.
   */
  method EarlySettlementLeaks() returns (g: Gate)
    ensures fresh(g) && g.Valid() && g.resolved && g.Settled() == Err(TimeoutFailure)
    ensures g.subscription && g.published == Some(StopPayload("T1"))
    ensures g.cleanupCount == 0 && !g.Released()
  {
    g := StartStop("T1");
    g.OnTimeout();
    assert g.resolved && g.cleanupCount == 0;
    g.OnSubscribeReturned();
    g.OnPublishReturned();
    g.OnMessage(Message(JStr("task_stopped"), JStr("T1"), JUndefined, JUndefined, JUndefined));
    g.OnTimeout();
  }

  /**
   * The same timing with the subscription released on assignment: the stop
   * command is still published, the wait stays rejected with the timeout,
   * and the subscription has been released exactly once.
   */
  method EarlySettlementReleased() returns (g: Gate)
    ensures fresh(g) && g.Valid() && g.resolved && g.Settled() == Err(TimeoutFailure)
    ensures g.subscription && g.published == Some(StopPayload("T1"))
    ensures g.cleanupCount == 1 && g.Released()
  {
    g := StartStop("T1");
    g.OnTimeout();
    g.OnSubscribeReturnedReleasing();
    g.OnPublishReturned();
    g.OnMessage(Message(JStr("task_stopped"), JStr("T1"), JUndefined, JUndefined, JUndefined));
    g.OnTimeout();
  }
}
