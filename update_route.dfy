/**
 * server/api/traders/update.post.ts: a truthy `taskId` is required; when a
 * profile URL is given it is scraped again for the trader's address; the
 * `edit` command is published and the route waits for `task_updated` or
 * `task_error` whose `data.id` is this task.
 */
module UpdateRoute {
  import opened Wrappers
  import opened JsValue
  import opened AddressScraper
  import opened Confirmation

  /** The fields the route reads from the request body, as sent. */
  datatype UpdateBody = UpdateBody(
    taskId: JsValue, traderType: JsValue, profile: JsValue, fixedAmount: JsValue,
    initialAmount: JsValue, privateKey: JsValue, myWalletAddress: JsValue)

  function ValidateUpdate(body: UpdateBody): (r: Result<UpdateBody, Failure>)
    ensures r.Ok? <==> Truthy(body.taskId)
    ensures r.Ok? ==> r.value == body
    ensures r.Err? ==> r.error == HttpError(400, JStr("Task ID is required"))
  {
    if !Truthy(body.taskId) then Err(HttpError(400, JStr("Task ID is required"))) else Ok(body)
  }

  /**
   * The address scraped for the update. `fetch(profile)` is the page text
   * when the request succeeds with an ok status, `None` when it fails, is
   * aborted or the status is not ok; it is consulted only for a truthy
   * profile.
   */
  function UpdateScrape(profile: JsValue, fetch: JsValue -> Option<string>): (r: Option<string>)
    ensures !Truthy(profile) ==> r == None
    ensures Truthy(profile) ==> r == ScrapeFetched(fetch(profile))
    ensures r.Some? ==> LooksLikeAddress(r.value)
  {
    if Truthy(profile) then ScrapeFetched(fetch(profile)) else None
  }

  /** `updateData` */
  function UpdateData(body: UpdateBody, scraped: Option<string>): (d: Payload)
    ensures d.Keys == {"taskId", "type", "address", "profile", "fixedAmount", "initialAmount", "privateKey", "myWalletAddress"}
    ensures d["taskId"] == body.taskId && d["type"] == body.traderType && d["address"] == AddressValue(scraped)
    ensures d["profile"] == body.profile && d["fixedAmount"] == body.fixedAmount
    ensures d["initialAmount"] == body.initialAmount && d["privateKey"] == body.privateKey
    ensures d["myWalletAddress"] == body.myWalletAddress
  {
    map["taskId" := body.taskId, "type" := body.traderType, "address" := AddressValue(scraped),
        "profile" := body.profile, "fixedAmount" := body.fixedAmount, "initialAmount" := body.initialAmount,
        "privateKey" := body.privateKey, "myWalletAddress" := body.myWalletAddress]
  }

  /** `{ action: 'edit', ...updateData, fixAmount: fixedAmount }` */
  function UpdatePayload(body: UpdateBody, scraped: Option<string>): (p: Payload)
    ensures p.Keys == UpdateData(body, scraped).Keys + {"action", "fixAmount"}
    ensures p["action"] == JStr("edit") && p["fixAmount"] == body.fixedAmount
    ensures forall k :: k in UpdateData(body, scraped) ==> p[k] == UpdateData(body, scraped)[k]
  {
    UpdateData(body, scraped)["action" := JStr("edit")]["fixAmount" := body.fixedAmount]
  }

  /**
   * Both the confirmation and the refusal are keyed on `msg.data?.id`
   * being this task; everything else is ignored.
   */
  function UpdateVerdict(taskId: JsValue, msg: Message): (v: Verdict)
    ensures v.Accept? <==> msg.event == JStr("task_updated") && StrictEq(msg.dataId, taskId)
    ensures v.Refuse? <==> msg.event == JStr("task_error") && StrictEq(msg.dataId, taskId)
    ensures v.Refuse? ==> HttpError(500, v.errorMessage) == BackendFailure(msg)
  {
    if StrictEq(msg.event, JStr("task_updated")) && StrictEq(msg.dataId, taskId) then Accept
    else if StrictEq(msg.event, JStr("task_error")) && StrictEq(msg.dataId, taskId) then Refuse(Or(msg.error, DefaultError))
    else Ignore
  }

  /** Unlike the stop and remove routes, a `task_error` about another task does not end the wait. */
  lemma OtherTasksErrorIgnored(taskId: JsValue, msg: Message)
    requires msg.event == JStr("task_error") && msg.dataId != taskId
    ensures UpdateVerdict(taskId, msg) == Ignore
  {
  }

  /** Without a profile nothing is fetched and the command carries `address: null`. */
  lemma NoProfileNoAddress(body: UpdateBody, fetch: JsValue -> Option<string>)
    requires !Truthy(body.profile)
    ensures UpdatePayload(body, UpdateScrape(body.profile, fetch))["address"] == JNull
  {
  }

  /**
   * The route up to the wait: validation first, then the scrape, then the
   * `edit` command that will be published.
   */
  function UpdateCommand(body: UpdateBody, fetch: JsValue -> Option<string>): (r: Result<Payload, Failure>)
    ensures r.Err? <==> !Truthy(body.taskId)
    ensures r.Err? ==> r.error == HttpError(400, JStr("Task ID is required"))
    ensures r.Ok? ==> r.value == UpdatePayload(body, UpdateScrape(body.profile, fetch))
  {
    match ValidateUpdate(body)
    case Err(e) => Err(e)
    case Ok(b) => Ok(UpdatePayload(b, UpdateScrape(b.profile, fetch)))
  }

  /** A rejected request does not depend on what any fetch would return: nothing is scraped. */
  lemma RejectedBeforeScraping(body: UpdateBody, fetch: JsValue -> Option<string>, other: JsValue -> Option<string>)
    requires !Truthy(body.taskId)
    ensures UpdateCommand(body, fetch) == UpdateCommand(body, other)
  {
  }

  /** The gate the route waits on. */
  method StartUpdate(body: UpdateBody, scraped: Option<string>) returns (g: Gate)
    ensures fresh(g) && g.Valid() && g.Released()
    ensures g.payload == UpdatePayload(body, scraped)
    ensures forall msg :: g.verdict(msg) == UpdateVerdict(body.taskId, msg)
    ensures !g.resolved && g.setup == Subscribing && g.published == None
  {
    g := new Gate(UpdatePayload(body, scraped), msg => UpdateVerdict(body.taskId, msg));
  }

  /** Another task's error is ignored; this task's error rejects with its message. */
  method KeyedErrorScenario(body: UpdateBody)
    requires body.taskId == JStr("T1")
  {
    var g := StartUpdate(body, None);
    g.OnSubscribeReturned();
    g.OnPublishReturned();
    g.OnMessage(Message(JStr("task_error"), JUndefined, JStr("T2"), JStr("bad key"), JUndefined));
    assert !g.resolved;
    var refusal := Message(JStr("task_error"), JUndefined, JStr("T1"), JUndefined, JUndefined);
    assert g.verdict(refusal) == Refuse(DefaultError);
    g.OnMessage(refusal);
    assert g.Settled() == Err(HttpError(500, JStr("Backend task failed")));
  }
}
