/**
 * The valuation half of server/utils/task.ts: cost basis, the order-book
 * price map, re-pricing, position statistics and the task summary.
 * Price lookups and the on-chain balance are parameters.
 */
module Valuation {
  import opened Wrappers
  import opened JsNumber
  import opened Dedup
  import opened Tasks

  // ---------------------------------------------------------------------
  // getPositionCostBasis

  /**
   * `getPositionCostBasis(position, size)`: recorded total bought, else
   * recorded initial value, else average price (0 when not finite) times size.
   */
  function GetPositionCostBasis(p: Position, size: Number): (r: Number)
    ensures FieldIsPositiveFinite(p.totalBought) ==> r == p.totalBought.n
    ensures !FieldIsPositiveFinite(p.totalBought) && FieldIsPositiveFinite(p.initialValue)
      ==> r == p.initialValue.n
    ensures !FieldIsPositiveFinite(p.totalBought) && !FieldIsPositiveFinite(p.initialValue)
      ==> r == Mul(if FieldIsFinite(p.avgPrice) then p.avgPrice.n else Fin(0.0), size)
    ensures size.Fin? ==> r.Fin?
  {
    if FieldIsPositiveFinite(p.totalBought) then p.totalBought.n
    else if FieldIsPositiveFinite(p.initialValue) then p.initialValue.n
    else
      var avgPrice := if FieldIsFinite(p.avgPrice) then p.avgPrice.n else Fin(0.0);
      Mul(avgPrice, size)
  }

  /** A recorded amount wins the fallback chain exactly when it is positive; the result is never NaN for a finite size. */
  lemma CostBasisFromRecordIsPositive(p: Position, size: Number)
    requires FieldIsPositiveFinite(p.totalBought) || FieldIsPositiveFinite(p.initialValue)
    ensures GetPositionCostBasis(p, size).Fin? && GetPositionCostBasis(p, size).v > 0.0
  {
  }

  // ---------------------------------------------------------------------
  // getOrderBookPriceMap

  /** `positions.map(p => p.asset).filter(a => typeof a === 'string' && a)` */
  function AssetCandidates(ps: seq<Position>): (r: seq<string>)
    ensures forall a :: a in r <==> a != "" && Some(a) in AssetsOf(ps)
    decreases |ps|
  {
    if |ps| == 0 then []
    else
      var init := AssetCandidates(ps[..|ps| - 1]);
      assert ps == ps[..|ps| - 1] + [ps[|ps| - 1]];
      var last := ps[|ps| - 1].asset;
      if last.Some? && last.value != "" then init + [last.value] else init
  }

  /** The asset fields of the positions, in order. */
  function AssetsOf(ps: seq<Position>): (r: seq<Option<string>>)
    ensures |r| == |ps| && forall i :: 0 <= i < |ps| ==> r[i] == ps[i].asset
    decreases |ps|
  {
    if |ps| == 0 then [] else AssetsOf(ps[..|ps| - 1]) + [ps[|ps| - 1].asset]
  }

  /** The assets whose price is looked up: each non-empty asset once. */
  function QueriedAssets(ps: seq<Position>): (r: seq<string>)
    ensures forall a :: a in r <==> a != "" && Some(a) in AssetsOf(ps)
  {
    Distinct(AssetCandidates(ps))
  }

  /** Every distinct asset is looked up once: `[A, A, B]` costs two lookups. */
  lemma QueriedAssetsAreDistinct(ps: seq<Position>)
    ensures NoDuplicates(QueriedAssets(ps))
  {
    DistinctHasNoDuplicates(AssetCandidates(ps));
  }

  /** `typeof price === 'number' && Number.isFinite(price) && price > 0` */
  predicate IsUsablePrice(price: NumField) {
    FieldIsPositiveFinite(price)
  }

  /** The map `getOrderBookPriceMap` builds, given the lookup `price` per asset. */
  function PriceMapOf(ps: seq<Position>, price: string -> NumField): (m: map<string, Number>)
    ensures forall a :: a in m <==> a in QueriedAssets(ps) && IsUsablePrice(price(a))
    ensures forall a :: a in m ==> price(a).Present? && m[a] == price(a).n && m[a].Fin? && m[a].v > 0.0
    ensures |QueriedAssets(ps)| == 0 ==> m == map[]
  {
    map a | a in QueriedAssets(ps) && IsUsablePrice(price(a)) :: price(a).n
  }

  /** The usable prices of `assets`, keyed by asset. */
  function UsablePrices(assets: seq<string>, price: string -> NumField): map<string, Number> {
    map a | a in assets && IsUsablePrice(price(a)) :: price(a).n
  }

  /** One more lookup result adds its price exactly when it is usable. */
  lemma UsablePricesStep(assets: seq<string>, asset: string, price: string -> NumField)
    ensures UsablePrices(assets + [asset], price) ==
      if IsUsablePrice(price(asset)) then UsablePrices(assets, price)[asset := price(asset).n]
      else UsablePrices(assets, price)
  {
  }

  /**
   * `getOrderBookPriceMap(positions)`: the price of each distinct asset is
   * fetched once (no request at all when there is none), and the loop keeps
   * each usable price.
   */
  method GetOrderBookPriceMap(positions: seq<Position>, price: string -> NumField)
    returns (priceMap: map<string, Number>)
    ensures priceMap == PriceMapOf(positions, price)
  {
    assert PriceMapOf(positions, price) == UsablePrices(QueriedAssets(positions), price);
    var assets := QueriedAssets(positions);
    QueriedAssetsAreDistinct(positions);
    if |assets| == 0 {
      priceMap := map[];
      return;
    }
    var results := seq(|assets|, k requires 0 <= k < |assets| => (assets[k], price(assets[k])));
    priceMap := map[];
    for i := 0 to |results|
      invariant priceMap == UsablePrices(assets[..i], price)
    {
      var (asset, p) := results[i];
      UsablePricesStep(assets[..i], asset, price);
      assert assets[..i + 1] == assets[..i] + [asset];
      if p.Present? && p.n.Fin? && p.n.v > 0.0 {
        priceMap := priceMap[asset := p.n];
      }
    }
    assert assets[..|results|] == assets;
  }

  // ---------------------------------------------------------------------
  // applyOrderBookPrices

  /** `priceMap.get(position.asset)` is a truthy number. */
  predicate HasPrice(p: Position, priceMap: map<string, Number>) {
    p.asset.Some? && p.asset.value in priceMap && JsNumber.Truthy(priceMap[p.asset.value])
  }

  /** The size used for re-pricing: `Number.isFinite(size) ? size : 0`. */
  function PricingSize(p: Position): (s: real)
    ensures FieldIsFinite(p.size) ==> s == p.size.n.v
    ensures !FieldIsFinite(p.size) ==> s == 0.0
  {
    if FieldIsFinite(p.size) then p.size.n.v else 0.0
  }

  /** The copy of a position re-priced at `price`. */
  function RepricePosition(p: Position, price: Number): (q: Position)
    ensures q.curPrice == Present(price)
    ensures q.currentValue == Present(Mul(Fin(PricingSize(p)), price))
    ensures q.cashPnl == Present(Sub(q.currentValue.n, GetPositionCostBasis(p, Fin(PricingSize(p)))))
    ensures q.percentPnl.Missing? <==> GetPositionCostBasis(p, Fin(PricingSize(p))).v <= 0.0
    ensures q.percentPnl.Present? ==>
      q.percentPnl.n == Mul(Div(q.cashPnl.n, GetPositionCostBasis(p, Fin(PricingSize(p)))), Fin(100.0))
    ensures q.asset == p.asset && q.size == p.size && q.avgPrice == p.avgPrice
    ensures q.totalBought == p.totalBought && q.initialValue == p.initialValue
    ensures q.realizedPnl == p.realizedPnl && q.title == p.title
  {
    var size := Fin(PricingSize(p));
    var currentValue := Mul(size, price);
    var costBasis := GetPositionCostBasis(p, size);
    var cashPnl := Sub(currentValue, costBasis);
    var percentPnl := if costBasis.v > 0.0 then Present(Mul(Div(cashPnl, costBasis), Fin(100.0))) else Missing;
    p.(curPrice := Present(price), currentValue := Present(currentValue),
       cashPnl := Present(cashPnl), percentPnl := percentPnl)
  }

  /**
   * `applyOrderBookPrices(positions, priceMap)`: the input itself when the map
   * is empty, otherwise a position-by-position copy that re-prices the
   * positions with a price and keeps the others as they are.
   */
  function ApplyOrderBookPrices(ps: seq<Position>, priceMap: map<string, Number>): (r: seq<Position>)
    ensures |r| == |ps|
    ensures |priceMap| == 0 ==> r == ps
    ensures forall i :: 0 <= i < |ps| && !HasPrice(ps[i], priceMap) ==> r[i] == ps[i]
    ensures forall i :: 0 <= i < |ps| && HasPrice(ps[i], priceMap) ==>
      r[i] == RepricePosition(ps[i], priceMap[ps[i].asset.value])
  {
    if |priceMap| == 0 then ps
    else
      seq(|ps|, i requires 0 <= i < |ps| =>
        if HasPrice(ps[i], priceMap) then RepricePosition(ps[i], priceMap[ps[i].asset.value]) else ps[i])
  }

  /**
   * For a finite price the re-priced figures are the real ones:
   * value = size × price, cash P&L = value − cost basis, and the percentage
   * is defined exactly when the cost basis is positive.
   */
  lemma RepricedFigures(p: Position, x: real)
    ensures var q := RepricePosition(p, Fin(x));
      var c := GetPositionCostBasis(p, Fin(PricingSize(p))).v;
      && q.currentValue == Present(Fin(PricingSize(p) * x))
      && q.cashPnl == Present(Fin(PricingSize(p) * x - c))
      && (c > 0.0 ==> q.percentPnl == Present(Fin((PricingSize(p) * x - c) / c * 100.0)))
      && (c <= 0.0 ==> q.percentPnl == Missing)
  {
  }

  /** Re-pricing twice at the same prices is re-pricing once. */
  lemma ApplyIdempotent(ps: seq<Position>, priceMap: map<string, Number>)
    ensures ApplyOrderBookPrices(ApplyOrderBookPrices(ps, priceMap), priceMap)
         == ApplyOrderBookPrices(ps, priceMap)
  {
    var once := ApplyOrderBookPrices(ps, priceMap);
    var twice := ApplyOrderBookPrices(once, priceMap);
    forall i | 0 <= i < |ps| ensures twice[i] == once[i] {
      if HasPrice(ps[i], priceMap) {
        var q := RepricePosition(ps[i], priceMap[ps[i].asset.value]);
        assert GetPositionCostBasis(q, Fin(PricingSize(q))) == GetPositionCostBasis(ps[i], Fin(PricingSize(ps[i])));
        assert RepricePosition(q, priceMap[ps[i].asset.value]) == q;
      }
    }
  }

  // ---------------------------------------------------------------------
  // computePositionStats

  datatype PositionStats = PositionStats(
    openPositionsCount: nat,
    totalPositionValue: Number,
    totalCostBasis: Number,
    unrealizedPnl: Number)

  /** `typeof pos.size === 'number' ? pos.size : 0` */
  function StatSize(p: Position): Number {
    OrIfMissing(p.size, Fin(0.0))
  }

  /** The loop skips a position when `size <= 0`; a NaN size is not skipped. */
  predicate IsOpen(p: Position) {
    !AtMostZero(StatSize(p))
  }

  /** `Number.isFinite(currentValue) ? currentValue : size * (curPrice || avgPrice || 0)` */
  function StatValue(p: Position): (r: Number)
    ensures FieldIsFinite(p.currentValue) ==> r == p.currentValue.n
    ensures !FieldIsFinite(p.currentValue) && FieldTruthy(p.curPrice) ==> r == Mul(StatSize(p), p.curPrice.n)
    ensures !FieldIsFinite(p.currentValue) && !FieldTruthy(p.curPrice) && FieldTruthy(p.avgPrice) ==>
      r == Mul(StatSize(p), p.avgPrice.n)
    ensures !FieldIsFinite(p.currentValue) && !FieldTruthy(p.curPrice) && !FieldTruthy(p.avgPrice) ==>
      r == Mul(StatSize(p), Fin(0.0))
  {
    if FieldIsFinite(p.currentValue) then p.currentValue.n
    else Mul(StatSize(p), FieldOr(p.curPrice, FieldOr(p.avgPrice, Fin(0.0))))
  }

  /** The cost basis written out inside the loop: total bought, initial value, else `(avgPrice || 0) * size`. */
  function StatCostBasis(p: Position): (r: Number)
    ensures FieldIsPositiveFinite(p.totalBought) ==> r == p.totalBought.n
    ensures !FieldIsPositiveFinite(p.totalBought) && FieldIsPositiveFinite(p.initialValue) ==> r == p.initialValue.n
    ensures FieldIsPositiveFinite(p.totalBought) || FieldIsPositiveFinite(p.initialValue) ==> r.Fin? && r.v > 0.0
  {
    if FieldIsPositiveFinite(p.totalBought) then p.totalBought.n
    else if FieldIsPositiveFinite(p.initialValue) then p.initialValue.n
    else Mul(FieldOr(p.avgPrice, Fin(0.0)), StatSize(p))
  }

  /** The three accumulators of the loop. */
  datatype Totals = Totals(count: nat, value: Number, cost: Number)

  function Step(t: Totals, p: Position): Totals {
    if IsOpen(p) then Totals(t.count + 1, Add(t.value, StatValue(p)), Add(t.cost, StatCostBasis(p)))
    else t
  }

  /** The accumulators after visiting `ps` in order. */
  function TotalsOf(ps: seq<Position>): (r: Totals)
    ensures r.count <= |ps|
    decreases |ps|
  {
    if |ps| == 0 then Totals(0, Fin(0.0), Fin(0.0))
    else Step(TotalsOf(ps[..|ps| - 1]), ps[|ps| - 1])
  }

  function PositionStatsOf(ps: seq<Position>): (r: PositionStats)
    ensures r.openPositionsCount <= |ps|
    ensures r.unrealizedPnl == Sub(r.totalPositionValue, r.totalCostBasis)
  {
    var t := TotalsOf(ps);
    PositionStats(t.count, t.value, t.cost, Sub(t.value, t.cost))
  }

  /** `computePositionStats(positions)` */
  method ComputePositionStats(positions: seq<Position>) returns (stats: PositionStats)
    ensures stats == PositionStatsOf(positions)
    ensures stats.unrealizedPnl == Sub(stats.totalPositionValue, stats.totalCostBasis)
  {
    var openPositionsCount: nat := 0;
    var totalPositionValue := Fin(0.0);
    var totalCostBasis := Fin(0.0);
    for i := 0 to |positions|
      invariant Totals(openPositionsCount, totalPositionValue, totalCostBasis) == TotalsOf(positions[..i])
    {
      assert positions[..i + 1][..i] == positions[..i];
      var pos := positions[i];
      var size := if pos.size.Present? then pos.size.n else Fin(0.0);
      if AtMostZero(size) {
        continue;
      }
      openPositionsCount := openPositionsCount + 1;
      var currentValue :=
        if FieldIsFinite(pos.currentValue) then pos.currentValue.n
        else Mul(size, FieldOr(pos.curPrice, FieldOr(pos.avgPrice, Fin(0.0))));
      var costBasis :=
        if FieldIsPositiveFinite(pos.totalBought) then pos.totalBought.n
        else if FieldIsPositiveFinite(pos.initialValue) then pos.initialValue.n
        else Mul(FieldOr(pos.avgPrice, Fin(0.0)), size);
      totalPositionValue := Add(totalPositionValue, currentValue);
      totalCostBasis := Add(totalCostBasis, costBasis);
    }
    assert positions[..|positions|] == positions;
    stats := PositionStats(openPositionsCount, totalPositionValue, totalCostBasis,
                           Sub(totalPositionValue, totalCostBasis));
  }

  /** The positions the loop does not skip, in order. */
  function OpenPositions(ps: seq<Position>): (r: seq<Position>)
    ensures forall p :: p in r ==> IsOpen(p)
    decreases |ps|
  {
    if |ps| == 0 then []
    else OpenPositions(ps[..|ps| - 1]) + (if IsOpen(ps[|ps| - 1]) then [ps[|ps| - 1]] else [])
  }

  /** Skipped positions contribute nothing: the statistics are those of the open positions alone. */
  lemma {:induction false} ClosedPositionsIgnored(ps: seq<Position>)
    ensures TotalsOf(ps) == TotalsOf(OpenPositions(ps))
    decreases |ps|
  {
    if |ps| > 0 {
      var init := ps[..|ps| - 1];
      var p := ps[|ps| - 1];
      ClosedPositionsIgnored(init);
      if IsOpen(p) {
        var o := OpenPositions(init) + [p];
        assert OpenPositions(ps) == o;
        assert o[..|o| - 1] == OpenPositions(init);
        assert TotalsOf(o) == Step(TotalsOf(OpenPositions(init)), p);
      } else {
        assert OpenPositions(ps) == OpenPositions(init) + [];
        assert OpenPositions(init) + [] == OpenPositions(init);
      }
    }
  }

  /** The open count is the number of positions whose size is not `<= 0`. */
  lemma {:induction false} OpenCount(ps: seq<Position>)
    ensures PositionStatsOf(ps).openPositionsCount == |OpenPositions(ps)|
    decreases |ps|
  {
    if |ps| > 0 {
      OpenCount(ps[..|ps| - 1]);
    }
  }

  /** Which positions are open: a present size that is positive or NaN. */
  lemma OpenExactly(p: Position)
    ensures IsOpen(p) <==> p.size.Present? && (Positive(p.size.n) || p.size.n.NaN?)
  {
  }

  /** A position with a non-positive or missing size changes no statistic. */
  lemma {:induction false} AppendClosed(ps: seq<Position>, p: Position)
    requires !IsOpen(p)
    ensures PositionStatsOf(ps + [p]) == PositionStatsOf(ps)
  {
    assert (ps + [p])[..|ps|] == ps;
  }

  /** An open position whose value and cost basis are finite numbers. */
  predicate FiniteFigures(p: Position) {
    IsOpen(p) ==> StatValue(p).Fin? && StatCostBasis(p).Fin?
  }

  /** When every open position has finite figures, so do the totals. */
  lemma {:induction false} FiniteTotals(ps: seq<Position>)
    requires forall i :: 0 <= i < |ps| ==> FiniteFigures(ps[i])
    ensures TotalsOf(ps).value.Fin? && TotalsOf(ps).cost.Fin?
    decreases |ps|
  {
    if |ps| > 0 {
      var init := ps[..|ps| - 1];
      assert forall i :: 0 <= i < |init| ==> init[i] == ps[i];
      FiniteTotals(init);
      assert FiniteFigures(ps[|ps| - 1]);
    }
  }

  /** ... and the unrealized P&L is then the real difference of the totals. */
  lemma FiniteUnrealizedPnl(ps: seq<Position>)
    requires forall i :: 0 <= i < |ps| ==> FiniteFigures(ps[i])
    ensures var t := TotalsOf(ps);
      t.value.Fin? && t.cost.Fin? && PositionStatsOf(ps).unrealizedPnl == Fin(t.value.v - t.cost.v)
  {
    FiniteTotals(ps);
    var t := TotalsOf(ps);
    assert t.value.Fin? && t.cost.Fin?;
    assert PositionStatsOf(ps).unrealizedPnl == Sub(t.value, t.cost);
  }

  /**
   * The loop's inline cost basis agrees with `getPositionCostBasis` unless
   * the average price is infinite (`avgPrice || 0` lets Infinity through,
   * `Number.isFinite` does not).
   */
  lemma StatCostBasisAgrees(p: Position)
    requires !(p.avgPrice.Present? && (p.avgPrice.n.PosInf? || p.avgPrice.n.NegInf?))
    ensures StatCostBasis(p) == GetPositionCostBasis(p, StatSize(p))
  {
  }

  /** An example where the two cost bases differ. */
  lemma StatCostBasisDiffers()
    ensures var p := Position(None, Present(Fin(2.0)), Present(PosInf), Missing, Missing,
                              Missing, Missing, Missing, Missing, Missing, None);
      StatCostBasis(p) == PosInf && GetPositionCostBasis(p, StatSize(p)) == Fin(0.0)
  {
  }

  // ---------------------------------------------------------------------
  // getTaskSummary

  datatype TaskSummary = TaskSummary(
    currentBalance: Number,
    pricedPositions: seq<Position>,
    stats: PositionStats,
    initialFinance: Number,
    equity: Number,
    totalPnl: Number,
    realizedPnl: Number)

  /**
   * `getTaskSummary(task, positions)`: `price` answers the order-book lookups
   * and `liveBalance` is what `getUsdcBalance` returns for the task's wallet.
   */
  function GetTaskSummary(task: CopyTask, positions: seq<Position>, price: string -> NumField, liveBalance: Number)
    : (s: TaskSummary)
    ensures task.taskType == Mock ==> s.pricedPositions == ApplyOrderBookPrices(positions, PriceMapOf(positions, price))
    ensures task.taskType == Live ==> s.pricedPositions == positions
    ensures |s.pricedPositions| == |positions|
    ensures s.stats == PositionStatsOf(s.pricedPositions)
    ensures s.currentBalance == (if task.taskType == Live && AtLeastZero(liveBalance) then liveBalance else task.currentBalance)
    ensures s.initialFinance == task.initialFinance
    ensures s.equity == Add(s.currentBalance, s.stats.totalPositionValue)
    ensures s.totalPnl == Sub(s.equity, task.initialFinance)
    ensures s.realizedPnl == Sub(Add(s.currentBalance, s.stats.totalCostBasis), task.initialFinance)
  {
    var priced := if task.taskType == Mock then ApplyOrderBookPrices(positions, PriceMapOf(positions, price)) else positions;
    var stats := PositionStatsOf(priced);
    var balance := if task.taskType == Live && AtLeastZero(liveBalance) then liveBalance else task.currentBalance;
    var equity := Add(balance, stats.totalPositionValue);
    TaskSummary(balance, priced, stats, task.initialFinance, equity,
                Sub(equity, task.initialFinance),
                Sub(Add(balance, stats.totalCostBasis), task.initialFinance))
  }

  /**
   * With finite figures, total P&L splits into realized and unrealized P&L:
   * (balance + value − initial) = (balance + cost − initial) + (value − cost).
   */
  lemma PnlDecomposition(task: CopyTask, positions: seq<Position>, price: string -> NumField, liveBalance: Number)
    requires var s := GetTaskSummary(task, positions, price, liveBalance);
      s.currentBalance.Fin? && s.initialFinance.Fin?
      && s.stats.totalPositionValue.Fin? && s.stats.totalCostBasis.Fin?
    ensures var s := GetTaskSummary(task, positions, price, liveBalance);
      s.totalPnl.Fin? && s.realizedPnl.Fin? && s.stats.unrealizedPnl.Fin?
      && s.totalPnl.v == s.realizedPnl.v + s.stats.unrealizedPnl.v
      && s.equity.v == s.currentBalance.v + s.stats.totalPositionValue.v
  {
  }

  /** A mock task keeps its recorded balance whatever the chain reports. */
  lemma MockBalanceIsRecorded(task: CopyTask, positions: seq<Position>, price: string -> NumField, b1: Number, b2: Number)
    requires task.taskType == Mock
    ensures GetTaskSummary(task, positions, price, b1) == GetTaskSummary(task, positions, price, b2)
  {
  }
}
