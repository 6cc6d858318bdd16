/**
 * The record shapes of server/utils/task.ts and its pure helpers: task
 * normalisation, the profile name shown for a task, the trade mapping of
 * `fetchTrades` and the empty-address guard of `fetchLivePositions`.
 */
module Tasks {
  import opened Wrappers
  import opened JsNumber
  import opened JsValue

  datatype TaskType = Mock | Live
  datatype TaskStatus = Running | Stopped

  /** A task as stored, possibly written by an older version (with `wallet`). */
  datatype RawTask = RawTask(
    id: Option<string>,
    taskType: Option<string>,
    address: Option<string>,
    myWalletAddress: Option<string>,
    wallet: Option<string>,
    url: Option<string>,
    initialFinance: NumField,
    currentBalance: NumField,
    fixedAmount: NumField,
    createdAt: NumField,
    status: Option<string>,
    privateKey: Option<string>)

  /** `CopyTask`, the normalised task. */
  datatype CopyTask = CopyTask(
    id: string,
    taskType: TaskType,
    address: string,
    myWalletAddress: string,
    url: string,
    initialFinance: Number,
    currentBalance: Number,
    fixedAmount: Number,
    createdAt: Number,
    status: TaskStatus,
    privateKey: Option<string>)

  /** What every normalised task satisfies: a live task always has a key string. */
  predicate WellFormed(t: CopyTask) {
    t.taskType == Live ==> t.privateKey.Some?
  }

  /**
   * `normalizeTask(task)`, with the value of `Date.now()` passed in as `now`.
   */
  function NormalizeTask(raw: RawTask, now: real): (t: CopyTask)
    ensures t.id == StrOr(raw.id, "") && t.address == StrOr(raw.address, "") && t.url == StrOr(raw.url, "")
    ensures t.myWalletAddress == StrOr(raw.myWalletAddress, StrOr(raw.wallet, ""))
    ensures t.initialFinance == (if raw.initialFinance.Present? then raw.initialFinance.n else Fin(0.0))
    ensures t.currentBalance == (if raw.currentBalance.Present? then raw.currentBalance.n else Fin(0.0))
    ensures t.fixedAmount == (if raw.fixedAmount.Present? then raw.fixedAmount.n else Fin(0.0))
    ensures t.createdAt == (if raw.createdAt.Present? then raw.createdAt.n else Fin(now))
    ensures t.status == Stopped <==> raw.status == Some("stopped")
    ensures t.taskType == Mock <==> raw.taskType == Some("mock")
    ensures t.taskType == Mock ==> t.privateKey == raw.privateKey
    ensures t.taskType == Live ==> t.privateKey == Some(StrOr(raw.privateKey, ""))
    ensures WellFormed(t)
  {
    var isMock := raw.taskType == Some("mock");
    CopyTask(
      id := StrOr(raw.id, ""),
      taskType := if isMock then Mock else Live,
      address := StrOr(raw.address, ""),
      myWalletAddress := StrOr(raw.myWalletAddress, StrOr(raw.wallet, "")),
      url := StrOr(raw.url, ""),
      initialFinance := OrIfMissing(raw.initialFinance, Fin(0.0)),
      currentBalance := OrIfMissing(raw.currentBalance, Fin(0.0)),
      fixedAmount := OrIfMissing(raw.fixedAmount, Fin(0.0)),
      createdAt := OrIfMissing(raw.createdAt, Fin(now)),
      status := if raw.status == Some("stopped") then Stopped else Running,
      privateKey := if isMock then raw.privateKey else Some(StrOr(raw.privateKey, "")))
  }

  /** The stored form of a normalised task, as the worker writes it back. */
  function Stored(t: CopyTask): (r: RawTask)
    ensures r.id.Some? && r.taskType.Some? && r.address.Some? && r.myWalletAddress.Some?
    ensures r.url.Some? && r.status.Some? && r.wallet.None?
    ensures r.initialFinance.Present? && r.currentBalance.Present?
    ensures r.fixedAmount.Present? && r.createdAt.Present?
    ensures r.privateKey == t.privateKey
  {
    RawTask(
      id := Some(t.id),
      taskType := Some(if t.taskType == Mock then "mock" else "live"),
      address := Some(t.address),
      myWalletAddress := Some(t.myWalletAddress),
      wallet := None,
      url := Some(t.url),
      initialFinance := Present(t.initialFinance),
      currentBalance := Present(t.currentBalance),
      fixedAmount := Present(t.fixedAmount),
      createdAt := Present(t.createdAt),
      status := Some(if t.status == Stopped then "stopped" else "running"),
      privateKey := t.privateKey)
  }

  /** Normalising a stored normalised task gives it back, whatever the clock says. */
  lemma NormalizeStoredTask(t: CopyTask, now: real)
    requires WellFormed(t)
    ensures NormalizeTask(Stored(t), now) == t
  {
  }

  /** Normalisation is idempotent. */
  lemma NormalizeIdempotent(raw: RawTask, now: real, later: real)
    ensures NormalizeTask(Stored(NormalizeTask(raw, now)), later) == NormalizeTask(raw, now)
  {
    NormalizeStoredTask(NormalizeTask(raw, now), later);
  }

  /** A legacy record without `myWalletAddress` takes its wallet from `wallet`. */
  lemma LegacyWalletFallback(raw: RawTask, now: real)
    requires raw.myWalletAddress.None? || raw.myWalletAddress == Some("")
    ensures NormalizeTask(raw, now).myWalletAddress == StrOr(raw.wallet, "")
  {
  }

  // ---------------------------------------------------------------------
  // extractProfileName: the last non-empty segment of the URL's pathname

  /** Where the trailing run of non-'/' characters of `p` starts. */
  function RunStart(p: string): (k: nat)
    ensures k <= |p|
    ensures forall i :: k <= i < |p| ==> p[i] != '/'
    ensures k > 0 ==> p[k - 1] == '/'
    decreases |p|
  {
    if p == "" then 0
    else if p[|p| - 1] == '/' then |p|
    else RunStart(p[..|p| - 1])
  }

  /** `path.split('/').filter(Boolean)`, built from the right. */
  function Segments(p: string): (r: seq<string>)
    ensures forall i :: 0 <= i < |r| ==> r[i] != "" && '/' !in r[i]
    decreases |p|
  {
    if p == "" then []
    else if p[|p| - 1] == '/' then Segments(p[..|p| - 1])
    else
      var k := RunStart(p);
      assert k < |p|;
      Segments(p[..k]) + [p[k..]]
  }

  /**
   * `extractProfileName(url)`, given the URL's pathname, or None where
   * `new URL(url)` throws.
   */
  function ExtractProfileName(pathname: Option<string>): (r: string)
    ensures r != ""
    ensures pathname.None? ==> r == "Unknown"
    ensures r == "Unknown" || '/' !in r
  {
    match pathname
    case None => "Unknown"
    case Some(p) =>
      var parts := Segments(p);
      if |parts| == 0 then "Unknown" else parts[|parts| - 1]
  }

  predicate AllSlashes(s: string) {
    forall i :: 0 <= i < |s| ==> s[i] == '/'
  }

  /** The length of `p` without its trailing '/' characters. */
  function TrimmedEnd(p: string): (e: nat)
    ensures e <= |p| && AllSlashes(p[e..])
    ensures e > 0 ==> p[e - 1] != '/'
    ensures e == 0 <==> AllSlashes(p)
    decreases |p|
  {
    if p == "" then 0
    else if p[|p| - 1] == '/' then
      var init := p[..|p| - 1];
      var e := TrimmedEnd(init);
      assert p[e..] == init[e..] + ['/'];
      assert AllSlashes(p) <==> AllSlashes(init) by {
        assert forall i :: 0 <= i < |init| ==> init[i] == p[i];
      }
      e
    else
      assert p[|p|..] == [];
      |p|
  }

  /**
   * Trailing '/' characters make no segment, and the last segment is the
   * '/'-free run that ends where they begin.
   */
  lemma {:induction false} LastSegment(p: string)
    ensures |Segments(p)| == 0 <==> TrimmedEnd(p) == 0
    ensures TrimmedEnd(p) > 0 ==>
      Segments(p)[|Segments(p)| - 1] == p[RunStart(p[..TrimmedEnd(p)])..TrimmedEnd(p)]
    decreases |p|
  {
    if p == "" {
    } else if p[|p| - 1] == '/' {
      var init := p[..|p| - 1];
      LastSegment(init);
      assert Segments(p) == Segments(init);
      var e := TrimmedEnd(init);
      assert TrimmedEnd(p) == e;
      assert init[..e] == p[..e];
      assert init[RunStart(p[..e])..e] == p[RunStart(p[..e])..e];
    } else {
      var k := RunStart(p);
      assert Segments(p) == Segments(p[..k]) + [p[k..]];
      assert TrimmedEnd(p) == |p|;
      assert p[..|p|] == p;
    }
  }

  /**
   * The profile name of a path is its last segment: a non-empty, '/'-free
   * piece that starts the path or follows a '/', with only '/' after it; a
   * path made only of '/' characters gives "Unknown".
   */
  lemma ProfileNameOfPath(p: string)
    ensures AllSlashes(p) ==> ExtractProfileName(Some(p)) == "Unknown"
    ensures !AllSlashes(p) ==>
      var e := TrimmedEnd(p);
      var j := RunStart(p[..e]);
      && ExtractProfileName(Some(p)) == p[j..e]
      && j < e && '/' !in p[j..e]
      && (j == 0 || p[j - 1] == '/')
      && AllSlashes(p[e..])
  {
    LastSegment(p);
    if !AllSlashes(p) {
      var e := TrimmedEnd(p);
      var q := p[..e];
      var j := RunStart(q);
      assert q[e - 1] != '/';
      assert j < e;
      var r := q[j..];
      assert r == p[j..e];
      assert '/' !in r by {
        forall i | 0 <= i < |r| ensures r[i] != '/' {
          assert r[i] == q[j + i];
        }
      }
      assert j > 0 ==> p[j - 1] == q[j - 1];
    }
  }

  // ---------------------------------------------------------------------
  // Positions and trades

  /** A position record (mock store or live API); display metadata reduced to its title. */
  datatype Position = Position(
    asset: Option<string>,
    size: NumField,
    avgPrice: NumField,
    totalBought: NumField,
    initialValue: NumField,
    curPrice: NumField,
    currentValue: NumField,
    cashPnl: NumField,
    percentPnl: NumField,
    realizedPnl: NumField,
    title: Option<string>)

  /**
   * `fetchLivePositions(address, taskId)`: no request at all for an empty
   * address; `fetched` is what the positions API yields for an address
   * (already an empty list on any failure).
   */
  function FetchLivePositions(address: string, fetched: string -> seq<Position>): (r: seq<Position>)
    ensures address == "" ==> r == []
    ensures address != "" ==> r == fetched(address)
  {
    if address == "" then [] else fetched(address)
  }

  /** A stored trade record; `id` is `_id?.toString()`. */
  datatype Trade = Trade(
    id: Option<string>,
    taskId: string,
    side: string,
    asset: string,
    conditionId: string,
    outcomeIndex: NumField,
    fillPrice: NumField,
    fillSize: NumField,
    usdcAmount: NumField,
    slippage: NumField,
    realizedPnl: NumField,
    executedAt: NumField,
    title: Option<string>,
    slug: Option<string>,
    eventSlug: Option<string>,
    outcome: Option<string>)

  /** `TradeRecordData`, the trade as sent to the frontend. */
  datatype TradeRecordData = TradeRecordData(
    id: string,
    taskId: string,
    side: string,
    asset: string,
    conditionId: string,
    outcomeIndex: Number,
    fillPrice: NumField,
    fillSize: NumField,
    usdcAmount: NumField,
    slippage: NumField,
    realizedPnl: NumField,
    executedAt: NumField,
    title: string,
    slug: string,
    eventSlug: string,
    outcome: string)

  /**
   * The per-trade mapping of `fetchTrades`; `render` is JavaScript's
   * conversion of `executedAt` to text inside the fallback id.
   */
  function TradeRecordOf(trade: Trade, render: NumField -> string): (d: TradeRecordData)
    ensures d.id == StrOr(trade.id, trade.taskId + "-" + render(trade.executedAt))
    ensures d.outcomeIndex == OrIfMissing(trade.outcomeIndex, Fin(0.0))
    ensures d.title == StrOr(trade.title, "") && d.slug == StrOr(trade.slug, "")
    ensures d.eventSlug == StrOr(trade.eventSlug, "") && d.outcome == StrOr(trade.outcome, "")
    ensures d.taskId == trade.taskId && d.side == trade.side && d.asset == trade.asset
    ensures d.conditionId == trade.conditionId
    ensures d.fillPrice == trade.fillPrice && d.fillSize == trade.fillSize
    ensures d.usdcAmount == trade.usdcAmount && d.slippage == trade.slippage
    ensures d.realizedPnl == trade.realizedPnl && d.executedAt == trade.executedAt
  {
    TradeRecordData(
      id := StrOr(trade.id, trade.taskId + "-" + render(trade.executedAt)),
      taskId := trade.taskId,
      side := trade.side,
      asset := trade.asset,
      conditionId := trade.conditionId,
      outcomeIndex := OrIfMissing(trade.outcomeIndex, Fin(0.0)),
      fillPrice := trade.fillPrice,
      fillSize := trade.fillSize,
      usdcAmount := trade.usdcAmount,
      slippage := trade.slippage,
      realizedPnl := trade.realizedPnl,
      executedAt := trade.executedAt,
      title := StrOr(trade.title, ""),
      slug := StrOr(trade.slug, ""),
      eventSlug := StrOr(trade.eventSlug, ""),
      outcome := StrOr(trade.outcome, ""))
  }

  /** The `.map` of `fetchTrades` over the trades the query returned. */
  function FetchTrades(trades: seq<Trade>, render: NumField -> string): (r: seq<TradeRecordData>)
    ensures |r| == |trades|
    ensures forall i :: 0 <= i < |trades| ==> r[i] == TradeRecordOf(trades[i], render)
  {
    seq(|trades|, i requires 0 <= i < |trades| => TradeRecordOf(trades[i], render))
  }

  /** Mapping a trade loses nothing a complete record carries. */
  lemma CompleteTradePassesThrough(trade: Trade, render: NumField -> string)
    requires trade.id.Some? && trade.id.value != "" && trade.outcomeIndex.Present?
    requires trade.title.Some? && trade.slug.Some? && trade.eventSlug.Some? && trade.outcome.Some?
    ensures var d := TradeRecordOf(trade, render);
      d.id == trade.id.value && d.outcomeIndex == trade.outcomeIndex.n
      && d.title == trade.title.value && d.slug == trade.slug.value
      && d.eventSlug == trade.eventSlug.value && d.outcome == trade.outcome.value
  {
  }
}
