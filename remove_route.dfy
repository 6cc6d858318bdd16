/**
 * server/api/traders/remove.post.ts: an optional string `taskId`; publish
 * `{action: 'remove'}` (with `taskId` when one is given) and wait for a
 * matching `task_removed`, or any `task_error`.
 */
module RemoveRoute {
  import opened Wrappers
  import opened JsValue
  import opened Confirmation

  /** `taskId` may be left out; anything given must be a string (null is refused). */
  function ValidateRemove(taskId: JsValue): (r: Result<JsValue, Failure>)
    ensures r.Ok? <==> taskId.JUndefined? || taskId.JStr?
    ensures r.Ok? ==> r.value == taskId
    ensures r.Err? ==> r.error == HttpError(400, JStr("Invalid taskId"))
  {
    if taskId != JUndefined && !taskId.JStr? then Err(HttpError(400, JStr("Invalid taskId")))
    else Ok(taskId)
  }

  /** `{action: 'remove'}`, with `taskId` added only when it is truthy. */
  function RemovePayload(taskId: JsValue): (p: Payload)
    ensures "action" in p && p["action"] == JStr("remove")
    ensures "taskId" in p <==> Truthy(taskId)
    ensures "taskId" in p ==> p["taskId"] == taskId
    ensures p.Keys <= {"action", "taskId"}
  {
    var base := map["action" := JStr("remove")];
    if Truthy(taskId) then base["taskId" := taskId] else base
  }

  /**
   * `task_removed` accepts when no task is named, or when it names this one;
   * `task_error` refuses; anything else, including another task's removal,
   * is ignored.
   */
  function RemoveVerdict(taskId: JsValue, msg: Message): (v: Verdict)
    ensures v.Accept? <==> msg.event == JStr("task_removed") && (!Truthy(taskId) || StrictEq(msg.taskId, taskId))
    ensures v.Refuse? <==> msg.event == JStr("task_error")
    ensures v.Refuse? ==> HttpError(500, v.errorMessage) == BackendFailure(msg)
  {
    if StrictEq(msg.event, JStr("task_removed")) then
      if !Truthy(taskId) || StrictEq(msg.taskId, taskId) then Accept else Ignore
    else if StrictEq(msg.event, JStr("task_error")) then Refuse(Or(msg.error, DefaultError))
    else Ignore
  }

  /**
   * Removing everything (no `taskId`, or an empty one) sends no `taskId`
   * and accepts the first removal of any task; naming a task sends it and
   * accepts only its own.
   */
  lemma RemoveAllOrOne(taskId: JsValue, msg: Message)
    requires ValidateRemove(taskId).Ok?
    requires msg.event == JStr("task_removed")
    ensures !Truthy(taskId) ==> RemovePayload(taskId) == map["action" := JStr("remove")] && RemoveVerdict(taskId, msg).Accept?
    ensures Truthy(taskId) ==> (RemoveVerdict(taskId, msg).Accept? <==> msg.taskId == taskId)
  {
  }

  /** The gate the route waits on. */
  method StartRemove(taskId: JsValue) returns (g: Gate)
    ensures fresh(g) && g.Valid() && g.Released()
    ensures g.payload == RemovePayload(taskId)
    ensures forall msg :: g.verdict(msg) == RemoveVerdict(taskId, msg)
    ensures !g.resolved && g.setup == Subscribing && g.published == None
  {
    g := new Gate(RemovePayload(taskId), msg => RemoveVerdict(taskId, msg));
  }

  /**
   * The route up to the wait: a rejected request gets its 400 before any
   * gate exists, so nothing is subscribed or published for it.
   */
  method HandleRemove(taskId: JsValue) returns (r: Result<Gate, Failure>)
    ensures r.Err? <==> ValidateRemove(taskId).Err?
    ensures r.Err? ==> r.error == HttpError(400, JStr("Invalid taskId"))
    ensures r.Ok? ==> fresh(r.value) && r.value.Valid() && r.value.Released()
    ensures r.Ok? ==> !r.value.resolved && r.value.setup == Subscribing && r.value.published == None
    ensures r.Ok? ==> r.value.payload == RemovePayload(taskId)
    ensures r.Ok? ==> forall msg :: r.value.verdict(msg) == RemoveVerdict(taskId, msg)
  {
    var v := ValidateRemove(taskId);
    if v.Err? {
      return Err(v.error);
    }
    var g := StartRemove(v.value);
    r := Ok(g);
  }

  /** Removing every task: the first `task_removed`, for whatever task, confirms. */
  method RemoveAllScenario()
  {
    var g := StartRemove(JUndefined);
    g.OnSubscribeReturned();
    g.OnPublishReturned();
    assert g.published == Some(map["action" := JStr("remove")]);
    var confirmation := Message(JStr("task_removed"), JStr("T7"), JUndefined, JUndefined, JUndefined);
    g.OnMessage(confirmation);
    assert g.Settled() == Ok(confirmation) && g.cleanupCount == 1;
    assert ConfirmedResponse(confirmation) == Response(JBool(true), Confirmation(confirmation));
  }

  /** A failing `publishTask` rejects with its own error and releases the subscription. */
  method PublishFailureScenario()
  {
    var g := StartRemove(JStr("T1"));
    g.OnSubscribeReturned();
    g.OnSetupError(JStr("connection lost"));
    assert g.Settled() == Err(SetupException(JStr("connection lost")));
    assert g.cleanupCount == 1 && g.timerCleared;
    g.OnTimeout();
    assert g.outcome == Rejected(SetupException(JStr("connection lost")));
  }
}
