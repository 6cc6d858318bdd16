/**
 * server/api/tasks/index.get.ts: every stored task is normalised, its
 * positions are fetched (the mock store by task id, the positions API by
 * the task's own wallet for a live task), valued by `getTaskSummary`, and
 * shaped into the portfolio card the dashboard shows.
 */
module TaskList {
  import opened Wrappers
  import opened JsNumber
  import opened JsValue
  import opened Tasks
  import opened Valuation

  /**
   * What the route reads from outside, as functions: order-book prices,
   * the on-chain balance of a wallet, the mock positions of a task id, what
   * the positions API returns for an address, and the pathname of a URL
   * (`None` when `new URL` throws).
   */
  datatype World = World(
    price: string -> NumField,
    balanceOf: string -> Number,
    mockPositions: string -> seq<Position>,
    livePositions: string -> seq<Position>,
    pathname: string -> Option<string>)

  datatype PortfolioStatus = Active | Paused

  /** `PortfolioData` */
  datatype PortfolioData = PortfolioData(
    id: string,
    name: string,
    description: string,
    mode: TaskType,
    status: PortfolioStatus,
    isVerified: bool,
    balance: Number,
    positions: nat,
    pnlAllTime: Number,
    unrealized: Number,
    realizedPnl: Number,
    equity: Number,
    initialFinance: Number,
    fixedAmount: Number,
    address: string,
    profileUrl: string,
    createdAt: Number)

  /** `Copying ${address.slice(0, 6)}...${address.slice(-4)}` */
  function Description(address: string): (d: string)
    ensures d == "Copying " + address[..Min(6, |address|)] + "..." + address[Max(|address| - 4, 0)..]
  {
    SliceHead(address, 6);
    SliceTail(address, 4);
    "Copying " + Slice(address, 0, 6) + "..." + Slice(address, -4, |address|)
  }

  /** For a full 42-character address the description shows `0x` and four digits at each end. */
  lemma DescriptionOfAddress(address: string)
    requires |address| == 42
    ensures |Description(address)| == 21
    ensures Description(address)[8..14] == address[..6] && Description(address)[17..] == address[38..]
  {
  }

  /** The positions a task is valued on. */
  function TaskPositions(task: CopyTask, w: World): (ps: seq<Position>)
    ensures task.taskType == Mock ==> ps == w.mockPositions(task.id)
    ensures task.taskType == Live && task.myWalletAddress == "" ==> ps == []
    ensures task.taskType == Live && task.myWalletAddress != "" ==> ps == w.livePositions(task.myWalletAddress)
  {
    if task.taskType == Mock then w.mockPositions(task.id)
    else FetchLivePositions(task.myWalletAddress, w.livePositions)
  }

  function Summary(task: CopyTask, w: World): TaskSummary {
    GetTaskSummary(task, TaskPositions(task, w), w.price, w.balanceOf(task.myWalletAddress))
  }

  /** One card of the list. */
  function Portfolio(task: CopyTask, w: World): (c: PortfolioData)
    ensures c.id == task.id && c.mode == task.taskType && c.address == task.address
    ensures c.profileUrl == task.url && c.createdAt == task.createdAt && c.fixedAmount == task.fixedAmount
    ensures c.name == ExtractProfileName(w.pathname(task.url)) && c.name != ""
    ensures c.description == Description(task.address)
    ensures c.status == Active <==> task.status == Running
    ensures !c.isVerified
    ensures c.positions == |OpenPositions(Summary(task, w).pricedPositions)|
    ensures c.balance == Summary(task, w).currentBalance && c.equity == Summary(task, w).equity
    ensures c.pnlAllTime == Summary(task, w).totalPnl && c.realizedPnl == Summary(task, w).realizedPnl
    ensures c.unrealized == Summary(task, w).stats.unrealizedPnl && c.initialFinance == task.initialFinance
  {
    var s := Summary(task, w);
    OpenCount(s.pricedPositions);
    PortfolioData(
      id := task.id,
      name := ExtractProfileName(w.pathname(task.url)),
      description := Description(task.address),
      mode := task.taskType,
      status := if task.status == Running then Active else Paused,
      isVerified := false,
      balance := s.currentBalance,
      positions := s.stats.openPositionsCount,
      pnlAllTime := s.totalPnl,
      unrealized := s.stats.unrealizedPnl,
      realizedPnl := s.realizedPnl,
      equity := s.equity,
      initialFinance := s.initialFinance,
      fixedAmount := task.fixedAmount,
      address := task.address,
      profileUrl := task.url,
      createdAt := task.createdAt)
  }

  /**
   * The route's `data`: one card per stored task, in the order the store
   * returns them. `now` is the clock reading `normalizeTask` falls back on.
   */
  function ListPortfolios(stored: seq<RawTask>, now: real, w: World): (r: seq<PortfolioData>)
    ensures |r| == |stored|
    ensures forall i :: 0 <= i < |stored| ==> r[i] == Portfolio(NormalizeTask(stored[i], now), w)
  {
    seq(|stored|, i requires 0 <= i < |stored| => Portfolio(NormalizeTask(stored[i], now), w))
  }

  /**
   * The whole listing over the stored entries, `None` standing for an entry
   * that does not parse. All entries are parsed before any card is built
   * and nothing catches a failure, so one bad entry fails the route.
   */
  function ListRoute(entries: seq<Option<RawTask>>, now: real, w: World): (r: Option<seq<PortfolioData>>)
    ensures r.None? <==> exists i :: 0 <= i < |entries| && entries[i].None?
    ensures r.Some? ==> |r.value| == |entries|
    ensures r.Some? ==> forall i :: 0 <= i < |entries| ==>
      entries[i].Some? && r.value[i] == Portfolio(NormalizeTask(entries[i].value, now), w)
  {
    if forall i :: 0 <= i < |entries| ==> entries[i].Some? then
      Some(ListPortfolios(seq(|entries|, i requires 0 <= i < |entries| => entries[i].value), now, w))
    else None
  }

  /** A task written by the system itself is listed with exactly its own fields. */
  lemma StoredTaskListed(t: CopyTask, now: real, w: World)
    requires WellFormed(t)
    ensures var c := ListPortfolios([Stored(t)], now, w)[0];
      c.id == t.id && c.mode == t.taskType && c.profileUrl == t.url && c.createdAt == t.createdAt
      && c.initialFinance == t.initialFinance && c.fixedAmount == t.fixedAmount
      && (c.status == Active <==> t.status == Running)
  {
    NormalizeStoredTask(t, now);
  }

  /** A mock card's balance is the recorded one, whatever the chain reports. */
  lemma MockCardIgnoresChain(task: CopyTask, w: World, balanceOf: string -> Number)
    requires task.taskType == Mock
    ensures Portfolio(task, w) == Portfolio(task, w.(balanceOf := balanceOf))
  {
    MockBalanceIsRecorded(task, TaskPositions(task, w), w.price,
                          w.balanceOf(task.myWalletAddress), balanceOf(task.myWalletAddress));
  }

  /** A live task without its own wallet shows no positions and a zero value. */
  lemma WalletlessLiveCard(task: CopyTask, w: World)
    requires task.taskType == Live && task.myWalletAddress == ""
    ensures Portfolio(task, w).positions == 0
    ensures Summary(task, w).stats.totalPositionValue == Fin(0.0)
  {
  }
}
