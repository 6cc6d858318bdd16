/**
 * server/api/traders/create.post.ts: scrape the profile page for the
 * trader's address; when one is found, publish the new task and wait for
 * `task_created` or `task_error`; otherwise answer at once with the trader
 * record.
 */
module CreateRoute {
  import opened Wrappers
  import opened JsValue
  import opened AddressScraper
  import opened Confirmation

  /** The fields the route reads from the request body, as sent. */
  datatype CreateBody = CreateBody(
    traderType: JsValue, profile: JsValue, fixedAmount: JsValue,
    initialAmount: JsValue, privateKey: JsValue, myWalletAddress: JsValue)

  /**
   * The address scraped from `fetch(profile)`, which is the page text when
   * the request succeeds with an ok status and `None` otherwise (a missing
   * profile makes `fetch` throw, which the route swallows).
   */
  function CreateScrape(profile: JsValue, fetch: JsValue -> Option<string>): (r: Option<string>)
    ensures r == ScrapeFetched(fetch(profile))
    ensures r.Some? ==> LooksLikeAddress(r.value)
  {
    ScrapeFetched(fetch(profile))
  }

  /** `newTrader` */
  function NewTrader(body: CreateBody, scraped: Option<string>): (t: Payload)
    ensures t.Keys == {"type", "address", "profile", "fixedAmount", "initialAmount", "privateKey", "myWalletAddress"}
    ensures t["type"] == body.traderType && t["address"] == AddressValue(scraped) && t["profile"] == body.profile
    ensures t["fixedAmount"] == body.fixedAmount && t["initialAmount"] == body.initialAmount
    ensures t["privateKey"] == body.privateKey && t["myWalletAddress"] == body.myWalletAddress
  {
    map["type" := body.traderType, "address" := AddressValue(scraped), "profile" := body.profile,
        "fixedAmount" := body.fixedAmount, "initialAmount" := body.initialAmount,
        "privateKey" := body.privateKey, "myWalletAddress" := body.myWalletAddress]
  }

  /** `{ ...newTrader, address: scrapedAddress, profile, fixAmount: fixedAmount }` */
  function CreatePayload(body: CreateBody, address: string): (p: Payload)
    ensures p.Keys == NewTrader(body, Some(address)).Keys + {"fixAmount"}
    ensures p["address"] == JStr(address) && p["fixAmount"] == body.fixedAmount
    ensures forall k :: k in NewTrader(body, Some(address)) ==> p[k] == NewTrader(body, Some(address))[k]
  {
    NewTrader(body, Some(address))["address" := JStr(address)]["profile" := body.profile]["fixAmount" := body.fixedAmount]
  }

  /** Any `task_created` accepts and any `task_error` refuses, whoever the task is. */
  function CreateVerdict(msg: Message): (v: Verdict)
    ensures v.Accept? <==> msg.event == JStr("task_created")
    ensures v.Refuse? <==> msg.event == JStr("task_error")
    ensures v.Refuse? ==> HttpError(500, v.errorMessage) == BackendFailure(msg)
  {
    if StrictEq(msg.event, JStr("task_created")) then Accept
    else if StrictEq(msg.event, JStr("task_error")) then Refuse(Or(msg.error, DefaultError))
    else Ignore
  }

  /** What the route does after scraping: answer at once, or publish and wait. */
  datatype CreatePlan = Immediate(response: Response) | Await(payload: Payload)

  function PlanCreate(body: CreateBody, scraped: Option<string>): (r: CreatePlan)
    ensures r.Await? <==> scraped.Some? && scraped.value != ""
    ensures r.Await? ==> r.payload == CreatePayload(body, scraped.value)
    ensures r.Immediate? ==> r.response == Response(JBool(true), Trader(NewTrader(body, scraped)))
  {
    if Truthy(AddressValue(scraped)) then Await(CreatePayload(body, scraped.value))
    else Immediate(Response(JBool(true), Trader(NewTrader(body, scraped))))
  }

  /**
   * A scraped address is never empty, so the route waits exactly when the
   * scrape found one, and never reports success without confirmation then.
   */
  lemma WaitsIffScraped(body: CreateBody, fetch: JsValue -> Option<string>)
    ensures PlanCreate(body, CreateScrape(body.profile, fetch)).Await? <==> CreateScrape(body.profile, fetch).Some?
    ensures PlanCreate(body, CreateScrape(body.profile, fetch)).Immediate? ==>
      PlanCreate(body, CreateScrape(body.profile, fetch)).response.data.fields["address"] == JNull
  {
    var scraped := CreateScrape(body.profile, fetch);
    if scraped.Some? {
      assert |scraped.value| == 42;
    }
  }

  /** The gate the route waits on once it has an address. */
  method StartCreate(body: CreateBody, address: string) returns (g: Gate)
    ensures fresh(g) && g.Valid() && g.Released()
    ensures g.payload == CreatePayload(body, address)
    ensures forall msg :: g.verdict(msg) == CreateVerdict(msg)
    ensures !g.resolved && g.setup == Subscribing && g.published == None
  {
    g := new Gate(CreatePayload(body, address), CreateVerdict);
  }

  /** The first `task_created`, for whatever task, confirms the creation. */
  method CreateScenario(body: CreateBody, address: string)
  {
    var g := StartCreate(body, address);
    g.OnSubscribeReturned();
    assert g.published.value["address"] == JStr(address);
    g.OnPublishReturned();
    var confirmation := Message(JStr("task_created"), JStr("new-task"), JUndefined, JUndefined, JUndefined);
    g.OnMessage(confirmation);
    assert g.Settled() == Ok(confirmation);
  }
}
