/**
 * The metrics evaluator: the single forward pass of `evaluate_signal` over
 * the trading days, with its accumulators (excursions of each entry, holding
 * periods, the entry price of the open trade, the profit and loss buckets,
 * the daily drawdown), and the aggregates built from them that can be stated
 * exactly: winning rate, holding share of the history, maximum drawdown.
 */
module Evaluate {
  import opened Signals
  import opened BackTest

  datatype Option<T> = None | Some(value: T)

  /** One row of the price table: the columns the evaluator reads. */
  datatype Bar = Bar(low: real, high: real, close: real)

  /** The excursions are floored so that every entry registers at least a 0.1% move. */
  const AdverseFloor: real := -0.001
  const FavorFloor: real := 0.001

  predicate PositiveCloses(bars: seq<Bar>) {
    forall k :: 0 <= k < |bars| ==> bars[k].close > 0.0
  }

  predicate PositiveEquity(equity: seq<real>) {
    forall k :: 0 <= k < |equity| ==> equity[k] > 0.0
  }

  /** What the evaluator demands of its inputs. */
  predicate ValidInputs(bars: seq<Bar>, equity: seq<real>, pos: seq<int>, period: int) {
    && |bars| == |equity| == |pos|
    && period >= 1
    && Binary(pos)
    && PositiveCloses(bars)
    && PositiveEquity(equity)
  }

  // ---------------------------------------------------------------------------
  // Scalar helpers with the semantics of Python's two-element min/max
  // ---------------------------------------------------------------------------

  function Min2(a: real, b: real): (r: real)
    ensures r <= a && r <= b && (r == a || r == b)
  {
    if b < a then b else a
  }

  function Max2(a: real, b: real): (r: real)
    ensures r >= a && r >= b && (r == a || r == b)
  {
    if b > a then b else a
  }

  /** Lowest low of a non-empty window of bars. */
  function LowestLow(w: seq<Bar>): (r: real)
    requires |w| > 0
    ensures exists k :: 0 <= k < |w| && r == w[k].low
    ensures forall k :: 0 <= k < |w| ==> r <= w[k].low
  {
    if |w| == 1 then w[0].low
    else
      var m := LowestLow(w[..|w| - 1]);
      if w[|w| - 1].low < m then w[|w| - 1].low else m
  }

  /** Highest high of a non-empty window of bars. */
  function HighestHigh(w: seq<Bar>): (r: real)
    requires |w| > 0
    ensures exists k :: 0 <= k < |w| && r == w[k].high
    ensures forall k :: 0 <= k < |w| ==> w[k].high <= r
  {
    if |w| == 1 then w[0].high
    else
      var m := HighestHigh(w[..|w| - 1]);
      if w[|w| - 1].high > m then w[|w| - 1].high else m
  }

  /** Largest element of a non-empty series. */
  function MaxOf(s: seq<real>): (r: real)
    requires |s| > 0
    ensures exists k :: 0 <= k < |s| && r == s[k]
    ensures forall k :: 0 <= k < |s| ==> s[k] <= r
  {
    if |s| == 1 then s[0]
    else
      var m := MaxOf(s[..|s| - 1]);
      if s[|s| - 1] > m then s[|s| - 1] else m
  }

  lemma DivideMonotone(a: real, b: real, c: real)
    requires a <= b && c > 0.0
    ensures a / c <= b / c
  {
    assert a / c * c == a;
    assert b / c * c == b;
  }

  // ---------------------------------------------------------------------------
  // Excursions of an entry over the `period` bars that follow it
  // ---------------------------------------------------------------------------

  /** The worst move of the window against an entry at `close`, at most -0.1%. */
  function AdverseMove(temp: seq<Bar>, close: real): (r: real)
    requires |temp| > 0 && close > 0.0
    ensures r <= AdverseFloor
  {
    Min2(LowestLow(temp) / close - 1.0, AdverseFloor)
  }

  /** The best move of the window for an entry at `close`, at least +0.1%. */
  function FavorMove(temp: seq<Bar>, close: real): (r: real)
    requires |temp| > 0 && close > 0.0
    ensures r >= FavorFloor
  {
    Max2(HighestHigh(temp) / close - 1.0, FavorFloor)
  }

  /**
   * The maximum adverse excursion recorded for an entry: the deepest fall of
   * a low of the window below the entry close, as a fraction of that close,
   * and never less than 0.1%.
   */
  lemma AdverseExcursion(temp: seq<Bar>, close: real)
    requires |temp| > 0 && close > 0.0
    ensures Abs(AdverseMove(temp, close)) >= -AdverseFloor
    ensures forall k :: 0 <= k < |temp| ==> Abs(AdverseMove(temp, close)) >= 1.0 - temp[k].low / close
    ensures Abs(AdverseMove(temp, close)) == -AdverseFloor
         || exists k :: 0 <= k < |temp| && Abs(AdverseMove(temp, close)) == 1.0 - temp[k].low / close
  {
    var m := LowestLow(temp);
    forall k | 0 <= k < |temp|
      ensures m / close <= temp[k].low / close
    {
      DivideMonotone(m, temp[k].low, close);
    }
  }

  /**
   * The maximum favourable excursion recorded for an entry: the highest rise
   * of a high of the window above the entry close, as a fraction of that
   * close, and never less than 0.1%.
   */
  lemma FavorableExcursion(temp: seq<Bar>, close: real)
    requires |temp| > 0 && close > 0.0
    ensures FavorMove(temp, close) >= FavorFloor
    ensures forall k :: 0 <= k < |temp| ==> FavorMove(temp, close) >= temp[k].high / close - 1.0
    ensures FavorMove(temp, close) == FavorFloor
         || exists k :: 0 <= k < |temp| && FavorMove(temp, close) == temp[k].high / close - 1.0
  {
    var m := HighestHigh(temp);
    forall k | 0 <= k < |temp|
      ensures temp[k].high / close <= m / close
    {
      DivideMonotone(temp[k].high, m, close);
    }
  }

  /** An excursion is recorded on day `i` when it is an entry with `period` bars after it. */
  predicate Measured(bars: seq<Bar>, pos: seq<int>, period: int, i: nat)
    requires i < |bars| == |pos|
  {
    i < |bars| - period && SignalAt(pos, i) == 1
  }

  /** The window of the `period` bars that follow day `i`. */
  function Window(bars: seq<Bar>, period: int, i: nat): (temp: seq<Bar>)
    requires period >= 1 && i < |bars| - period
    ensures |temp| == period
  {
    bars[i + 1..i + period + 1]
  }

  /** The MAE list after the first `n` days. */
  function MaeList(bars: seq<Bar>, pos: seq<int>, period: int, n: nat): (r: seq<real>)
    requires n <= |bars| == |pos| && period >= 1 && PositiveCloses(bars)
    ensures |r| <= n
  {
    if n == 0 then []
    else
      MaeList(bars, pos, period, n - 1)
      + (if Measured(bars, pos, period, n - 1)
         then [Abs(AdverseMove(Window(bars, period, n - 1), bars[n - 1].close))]
         else [])
  }

  /** The MFE list after the first `n` days. */
  function MfeList(bars: seq<Bar>, pos: seq<int>, period: int, n: nat): (r: seq<real>)
    requires n <= |bars| == |pos| && period >= 1 && PositiveCloses(bars)
    ensures |r| <= n
  {
    if n == 0 then []
    else
      MfeList(bars, pos, period, n - 1)
      + (if Measured(bars, pos, period, n - 1)
         then [FavorMove(Window(bars, period, n - 1), bars[n - 1].close)]
         else [])
  }

  /**
   * One MAE and one MFE per measured entry, never more than there are
   * entries, and every one of them at least 0.1%.
   */
  lemma {:induction false} ExcursionsRecorded(bars: seq<Bar>, pos: seq<int>, period: int, n: nat)
    requires n <= |bars| == |pos| && period >= 1 && PositiveCloses(bars)
    ensures |MaeList(bars, pos, period, n)| == |MfeList(bars, pos, period, n)| <= Count(pos, 1, n)
    ensures forall k :: 0 <= k < |MaeList(bars, pos, period, n)| ==> MaeList(bars, pos, period, n)[k] >= 0.001
    ensures forall k :: 0 <= k < |MfeList(bars, pos, period, n)| ==> MfeList(bars, pos, period, n)[k] >= 0.001
  {
    if n > 0 {
      ExcursionsRecorded(bars, pos, period, n - 1);
      if Measured(bars, pos, period, n - 1) {
        AdverseExcursion(Window(bars, period, n - 1), bars[n - 1].close);
        FavorableExcursion(Window(bars, period, n - 1), bars[n - 1].close);
      }
    }
  }

  // ---------------------------------------------------------------------------
  // Holding periods
  // ---------------------------------------------------------------------------

  /** The day starts a holding run: in position on day 0, or moving from 0 to 1. */
  predicate StartsRun(pos: seq<int>, i: nat)
    requires i < |pos|
  {
    (i == 0 && pos[i] == 1) || (i > 0 && pos[i - 1] == 0 && pos[i] == 1)
  }

  /**
   * The holding-period list after the first `n` days: a run start appends a
   * 0, and every later day whose previous day was held adds one to the last
   * counter (so the day a run is closed is counted as well).
   */
  function HoldList(pos: seq<int>, n: nat): (h: seq<nat>)
    requires n <= |pos| && Binary(pos)
    ensures |h| == Count(pos, 1, n)
  {
    if n == 0 then []
    else
      var h := HoldList(pos, n - 1);
      var i := n - 1;
      if StartsRun(pos, i) then h + [0]
      else if i > 0 && pos[i - 1] == 1 then
        OpenTradeCount(pos, i);
        h[|h| - 1 := h[|h| - 1] + 1]
      else h
  }

  /** The days `1..n-1` whose previous day was held. */
  function HeldDays(pos: seq<int>, n: nat): (r: nat)
    requires n <= |pos|
    ensures n > 0 ==> r < n
    ensures n == 0 ==> r == 0
  {
    if n <= 1 then 0
    else HeldDays(pos, n - 1) + (if pos[n - 2] == 1 then 1 else 0)
  }

  function Total(s: seq<nat>): nat {
    if s == [] then 0 else Total(s[..|s| - 1]) + s[|s| - 1]
  }

  lemma {:induction false} TotalBumpLast(s: seq<nat>)
    requires |s| > 0
    ensures Total(s[|s| - 1 := s[|s| - 1] + 1]) == Total(s) + 1
  {
    var t := s[|s| - 1 := s[|s| - 1] + 1];
    assert t[..|t| - 1] == s[..|s| - 1];
  }

  lemma TotalAppend(s: seq<nat>, x: nat)
    ensures Total(s + [x]) == Total(s) + x
  {
    assert (s + [x])[..|s|] == s;
  }

  /**
   * One holding counter per entry, and together they count every day whose
   * previous day was held.
   */
  lemma {:induction false} HoldingTotals(pos: seq<int>, n: nat)
    requires n <= |pos| && Binary(pos)
    ensures |HoldList(pos, n)| == Count(pos, 1, n)
    ensures Total(HoldList(pos, n)) == HeldDays(pos, n)
  {
    if n > 0 {
      HoldingTotals(pos, n - 1);
      var h := HoldList(pos, n - 1);
      var i := n - 1;
      if StartsRun(pos, i) {
        TotalAppend(h, 0);
      } else if i > 0 && pos[i - 1] == 1 {
        OpenTradeCount(pos, i);
        TotalBumpLast(h);
      }
    }
  }

  // ---------------------------------------------------------------------------
  // The open trade and the profit / loss buckets
  // ---------------------------------------------------------------------------

  /** The close of the most recent entry among the first `n` days, if any. */
  function EntryPrice(bars: seq<Bar>, pos: seq<int>, n: nat): (r: Option<real>)
    requires n <= |bars| == |pos|
    ensures r.Some? <==> Count(pos, 1, n) > 0
    ensures r.Some? ==> exists k :: 0 <= k < n && SignalAt(pos, k) == 1 && r.value == bars[k].close
                                    && Count(pos, 1, k + 1) == Count(pos, 1, n)
  {
    if n == 0 then None
    else if SignalAt(pos, n - 1) == 1 then Some(bars[n - 1].close)
    else EntryPrice(bars, pos, n - 1)
  }

  lemma EntryPricePositive(bars: seq<Bar>, pos: seq<int>, n: nat)
    requires n <= |bars| == |pos| && PositiveCloses(bars)
    ensures EntryPrice(bars, pos, n).Some? ==> EntryPrice(bars, pos, n).value > 0.0
  {
  }

  /** The return of a trade entered at `entry` and closed at `close`. */
  function ReturnOf(close: real, entry: real): real
    requires entry != 0.0
  {
    close / entry - 1.0
  }

  lemma ReturnSign(close: real, entry: real)
    requires entry > 0.0
    ensures ReturnOf(close, entry) >= 0.0 <==> close >= entry
  {
    var q := close / entry;
    assert q * entry == close;
  }

  /** The return of the trade closed on exit day `i`. */
  function Gain(bars: seq<Bar>, pos: seq<int>, i: nat): (g: real)
    requires i < |bars| == |pos| && Binary(pos) && PositiveCloses(bars) && SignalAt(pos, i) == -1
    ensures EntryPrice(bars, pos, i).Some?
    ensures g >= 0.0 <==> bars[i].close >= EntryPrice(bars, pos, i).value
  {
    ExitFollowsEntry(pos, i);
    EntryPricePositive(bars, pos, i);
    var entry := EntryPrice(bars, pos, i).value;
    ReturnSign(bars[i].close, entry);
    ReturnOf(bars[i].close, entry)
  }

  /** The profits bucket after the first `n` days. */
  function Profits(bars: seq<Bar>, pos: seq<int>, n: nat): (r: seq<real>)
    requires n <= |bars| == |pos| && Binary(pos) && PositiveCloses(bars)
    ensures |r| <= Count(pos, -1, n)
  {
    if n == 0 then []
    else
      Profits(bars, pos, n - 1)
      + (if SignalAt(pos, n - 1) == -1 && Gain(bars, pos, n - 1) >= 0.0 then [Gain(bars, pos, n - 1)] else [])
  }

  /** The losses bucket after the first `n` days, as positive magnitudes. */
  function Losses(bars: seq<Bar>, pos: seq<int>, n: nat): (r: seq<real>)
    requires n <= |bars| == |pos| && Binary(pos) && PositiveCloses(bars)
    ensures |r| <= Count(pos, -1, n)
  {
    if n == 0 then []
    else
      Losses(bars, pos, n - 1)
      + (if SignalAt(pos, n - 1) == -1 && Gain(bars, pos, n - 1) < 0.0 then [-Gain(bars, pos, n - 1)] else [])
  }

  /**
   * Every exit lands in exactly one bucket: profits hold the non-negative
   * gains, losses the magnitudes of the negative ones, and together they
   * number the exits, which never exceed the entries.
   */
  lemma {:induction false} TradesPartitioned(bars: seq<Bar>, pos: seq<int>, n: nat)
    requires n <= |bars| == |pos| && Binary(pos) && PositiveCloses(bars)
    ensures |Profits(bars, pos, n)| + |Losses(bars, pos, n)| == Count(pos, -1, n) <= Count(pos, 1, n)
    ensures forall k :: 0 <= k < |Profits(bars, pos, n)| ==> Profits(bars, pos, n)[k] >= 0.0
    ensures forall k :: 0 <= k < |Losses(bars, pos, n)| ==> Losses(bars, pos, n)[k] > 0.0
  {
    ExitsNeverExceedEntries(pos, n);
    if n > 0 {
      TradesPartitioned(bars, pos, n - 1);
    }
  }

  // ---------------------------------------------------------------------------
  // Drawdown
  // ---------------------------------------------------------------------------

  /** The drawdown of a value from a running maximum. */
  function DrawdownOf(value: real, maxValue: real): real
    requires maxValue != 0.0
  {
    1.0 - value / maxValue
  }

  lemma DrawdownRange(value: real, maxValue: real)
    requires 0.0 < value <= maxValue
    ensures 0.0 <= DrawdownOf(value, maxValue) < 1.0
    ensures DrawdownOf(value, maxValue) == 0.0 <==> value == maxValue
  {
    var q := value / maxValue;
    assert q * maxValue == value;
    assert q > 0.0;
    assert q <= 1.0;
    assert q == 1.0 <==> value == maxValue;
  }

  /** The drawdown of day `i`: how far equity stands below its maximum so far. */
  function Drawdown(equity: seq<real>, i: nat): (r: real)
    requires i < |equity| && PositiveEquity(equity)
    ensures 0.0 <= r < 1.0
    ensures r == 0.0 <==> equity[i] == MaxOf(equity[..i + 1])
  {
    var m := MaxOf(equity[..i + 1]);
    assert equity[..i + 1][i] == equity[i];
    DrawdownRange(equity[i], m);
    DrawdownOf(equity[i], m)
  }

  /** The drawdown list after the first `n` days. */
  function Drawdowns(equity: seq<real>, n: nat): (d: seq<real>)
    requires n <= |equity| && PositiveEquity(equity)
    ensures |d| == n
    ensures forall i :: 0 <= i < n ==> 0.0 <= d[i] < 1.0
  {
    seq(n, i requires 0 <= i < n => Drawdown(equity, i))
  }

  // ---------------------------------------------------------------------------
  // The whole pass and its aggregates
  // ---------------------------------------------------------------------------

  /** The accumulators of the pass. */
  datatype Tally = Tally(
    mae: seq<real>,
    mfe: seq<real>,
    holdDays: seq<nat>,
    profits: seq<real>,
    losses: seq<real>,
    drawdown: seq<real>,
    signalAmount: nat)

  /** The accumulators after the pass over all days. */
  function Bookkeeping(bars: seq<Bar>, equity: seq<real>, pos: seq<int>, period: int): Tally
    requires ValidInputs(bars, equity, pos, period)
  {
    var n := |bars|;
    Tally(MaeList(bars, pos, period, n), MfeList(bars, pos, period, n), HoldList(pos, n),
          Profits(bars, pos, n), Losses(bars, pos, n), Drawdowns(equity, n), Count(pos, 1, n))
  }

  /** The counting invariants of a tally over `days` days. */
  predicate Consistent(t: Tally, days: nat) {
    && |t.holdDays| == t.signalAmount
    && (days > 0 ==> Total(t.holdDays) < days)
    && |t.profits| + |t.losses| <= t.signalAmount
    && |t.mae| == |t.mfe| <= t.signalAmount
    && (forall k :: 0 <= k < |t.mae| ==> t.mae[k] >= 0.001)
    && (forall k :: 0 <= k < |t.mfe| ==> t.mfe[k] >= 0.001)
    && (forall k :: 0 <= k < |t.profits| ==> t.profits[k] >= 0.0)
    && (forall k :: 0 <= k < |t.losses| ==> t.losses[k] > 0.0)
    && |t.drawdown| == days
    && (forall k :: 0 <= k < |t.drawdown| ==> 0.0 <= t.drawdown[k] < 1.0)
  }

  /** The pass keeps every counting invariant. */
  lemma BookkeepingConsistent(bars: seq<Bar>, equity: seq<real>, pos: seq<int>, period: int)
    requires ValidInputs(bars, equity, pos, period)
    ensures Consistent(Bookkeeping(bars, equity, pos, period), |bars|)
    ensures Bookkeeping(bars, equity, pos, period).signalAmount == Count(pos, 1, |bars|)
    ensures Total(Bookkeeping(bars, equity, pos, period).holdDays) == HeldDays(pos, |bars|)
    ensures |Bookkeeping(bars, equity, pos, period).profits| + |Bookkeeping(bars, equity, pos, period).losses|
         == Count(pos, -1, |bars|)
  {
    var n := |bars|;
    ExcursionsRecorded(bars, pos, period, n);
    HoldingTotals(pos, n);
    TradesPartitioned(bars, pos, n);
  }

  /** Share of the entries that closed with a non-negative gain. */
  function WinningRate(t: Tally): (r: real)
    requires t.signalAmount > 0
    ensures Consistent(t, |t.drawdown|) ==> 0.0 <= r <= 1.0
  {
    (|t.profits| as real) / (t.signalAmount as real)
  }

  /** Held days as a share of the whole history. */
  function HoldPct(t: Tally, days: nat): (r: real)
    requires days > 0
    ensures Consistent(t, days) ==> 0.0 <= r < 1.0
  {
    (Total(t.holdDays) as real) / (days as real)
  }

  /** The largest daily drawdown. */
  function MaxDrawdown(t: Tally): (r: real)
    requires |t.drawdown| > 0
    ensures r in t.drawdown
    ensures forall k :: 0 <= k < |t.drawdown| ==> t.drawdown[k] <= r
    ensures Consistent(t, |t.drawdown|) ==> 0.0 <= r < 1.0
  {
    MaxOf(t.drawdown)
  }

  /** The exactly stated fields of the report. */
  datatype Report = Report(
    totalTradingDays: nat,
    signalCount: nat,
    holdingPct: real,
    winningRate: real,
    maxDrawdown: real)

  function Summary(t: Tally, days: nat): Report
    requires days > 0 && t.signalAmount > 0 && |t.drawdown| > 0
  {
    Report(days, t.signalAmount, HoldPct(t, days), WinningRate(t), MaxDrawdown(t))
  }

  /**
   * One entry on day 0 at a close of 10 and one exit on day 1 at 11: the
   * single trade gains 10%, lands in the profits bucket, and the winning
   * rate is one.
   */
  lemma OneWinningTrade()
    ensures var bars := [Bar(9.0, 10.0, 10.0), Bar(10.0, 12.0, 11.0), Bar(11.0, 13.0, 12.0)];
            var t := Bookkeeping(bars, [1.0, 1.1, 1.1], [1, 0, 0], 1);
            && t.profits == [0.1] && t.losses == [] && t.signalAmount == 1
            && t.holdDays == [1] && WinningRate(t) == 1.0
  {
    var bars := [Bar(9.0, 10.0, 10.0), Bar(10.0, 12.0, 11.0), Bar(11.0, 13.0, 12.0)];
    var pos := [1, 0, 0];
    assert SignalAt(pos, 0) == 1 && SignalAt(pos, 1) == -1 && SignalAt(pos, 2) == 0;
    assert Count(pos, 1, 3) == 1;
    assert EntryPrice(bars, pos, 1) == Some(10.0);
    assert Gain(bars, pos, 1) == 0.1;
    assert Profits(bars, pos, 3) == [0.1];
    assert Losses(bars, pos, 3) == [];
    assert HoldList(pos, 3) == [1];
  }

  // ---------------------------------------------------------------------------
  // The four steps of one day of the pass
  // ---------------------------------------------------------------------------

  /** Day `i`'s excursions: recorded for an entry that has a full window after it. */
  method RecordExcursions(assetValue: seq<Bar>, position: seq<int>, period: int, i: nat, signal: int,
                          mae: seq<real>, mfe: seq<real>)
    returns (mae': seq<real>, mfe': seq<real>)
    requires i < |assetValue| == |position| && period >= 1 && PositiveCloses(assetValue)
    requires signal == SignalAt(position, i)
    requires mae == MaeList(assetValue, position, period, i) && mfe == MfeList(assetValue, position, period, i)
    ensures mae' == MaeList(assetValue, position, period, i + 1)
    ensures mfe' == MfeList(assetValue, position, period, i + 1)
  {
    mae', mfe' := mae, mfe;
    if i < |assetValue| - period {
      if signal == 1 {
        var close := assetValue[i].close;
        var temp := assetValue[i + 1..i + period + 1];
        var adverseMove := AdverseMove(temp, close);
        var favorMove := FavorMove(temp, close);
        mae' := mae + [Abs(adverseMove)];
        mfe' := mfe + [favorMove];
      }
    }
  }

  /** Day `i`'s holding counters: a run start opens a counter, a held previous day bumps the last one. */
  method RecordHolding(position: seq<int>, i: nat, holdDays: seq<nat>) returns (holdDays': seq<nat>)
    requires i < |position| && Binary(position)
    requires holdDays == HoldList(position, i)
    ensures holdDays' == HoldList(position, i + 1)
  {
    holdDays' := holdDays;
    if (i == 0 && position[i] == 1) || (i > 0 && position[i - 1] == 0 && position[i] == 1) {
      holdDays' := holdDays + [0];
    } else if i > 0 && position[i - 1] == 1 {
      OpenTradeCount(position, i);
      holdDays' := holdDays[|holdDays| - 1 := holdDays[|holdDays| - 1] + 1];
    }
  }

  /** Day `i`'s trade: an entry records its close and is counted, an exit files its gain. */
  method RecordTrade(assetValue: seq<Bar>, position: seq<int>, i: nat, signal: int,
                     cost: Option<real>, signalAmount: nat, profits: seq<real>, losses: seq<real>)
    returns (cost': Option<real>, signalAmount': nat, profits': seq<real>, losses': seq<real>)
    requires i < |assetValue| == |position| && Binary(position) && PositiveCloses(assetValue)
    requires signal == SignalAt(position, i)
    requires cost == EntryPrice(assetValue, position, i) && signalAmount == Count(position, 1, i)
    requires profits == Profits(assetValue, position, i) && losses == Losses(assetValue, position, i)
    ensures cost' == EntryPrice(assetValue, position, i + 1) && signalAmount' == Count(position, 1, i + 1)
    ensures profits' == Profits(assetValue, position, i + 1) && losses' == Losses(assetValue, position, i + 1)
  {
    cost', signalAmount', profits', losses' := cost, signalAmount, profits, losses;
    if signal == 1 {
      cost' := Some(assetValue[i].close);
      signalAmount' := signalAmount + 1;
    } else if signal == -1 {
      ExitFollowsEntry(position, i);
      EntryPricePositive(assetValue, position, i);
      var gain := ReturnOf(assetValue[i].close, cost.value);
      assert gain == Gain(assetValue, position, i);
      if gain >= 0.0 {
        profits' := profits + [gain];
      } else {
        losses' := losses + [-gain];
      }
    }
  }

  /** Day `i`'s drawdown from the running maximum of the equity. */
  method RecordDrawdown(strategyValue: seq<real>, i: nat, drawdown: seq<real>) returns (drawdown': seq<real>)
    requires i < |strategyValue| && PositiveEquity(strategyValue)
    requires drawdown == Drawdowns(strategyValue, i)
    ensures drawdown' == Drawdowns(strategyValue, i + 1)
  {
    var maxValue := MaxOf(strategyValue[..i + 1]);
    drawdown' := drawdown + [DrawdownOf(strategyValue[i], maxValue)];
    assert drawdown'[i] == Drawdown(strategyValue, i);
  }

  /**
   * `evaluate_signal`: recompute the signals from the positions, run the
   * single pass, then derive the aggregates. The source divides by the
   * number of entries, so at least one entry is required.
   */
  method EvaluateSignal(assetValue: seq<Bar>, strategyValue: seq<real>, position: seq<int>, period: int)
    returns (t: Tally, report: Report)
    requires ValidInputs(assetValue, strategyValue, position, period)
    requires Count(position, 1, |assetValue|) > 0
    ensures t == Bookkeeping(assetValue, strategyValue, position, period)
    ensures Consistent(t, |assetValue|)
    ensures report == Summary(t, |assetValue|)
    ensures report.totalTradingDays == |assetValue| && report.signalCount == Count(position, 1, |assetValue|)
    ensures report.winningRate == (|t.profits| as real) / (report.signalCount as real)
    ensures 0.0 <= report.winningRate <= 1.0
    ensures report.holdingPct == (Total(t.holdDays) as real) / (|assetValue| as real)
    ensures Total(t.holdDays) == HeldDays(position, |assetValue|)
    ensures 0.0 <= report.holdingPct < 1.0
    ensures report.maxDrawdown in t.drawdown
    ensures forall k :: 0 <= k < |t.drawdown| ==> t.drawdown[k] <= report.maxDrawdown
    ensures 0.0 <= report.maxDrawdown < 1.0
  {
    var signal := PositionToSignal(position);
    var mae: seq<real>, mfe: seq<real> := [], [];
    var holdDays: seq<nat>, profits: seq<real>, losses: seq<real>, drawdown: seq<real> := [], [], [], [];
    var signalAmount: nat := 0;
    var testTradingDays := |assetValue|;
    var cost: Option<real> := None;

    for i := 0 to testTradingDays
      invariant mae == MaeList(assetValue, position, period, i)
      invariant mfe == MfeList(assetValue, position, period, i)
      invariant holdDays == HoldList(position, i)
      invariant cost == EntryPrice(assetValue, position, i)
      invariant signalAmount == Count(position, 1, i)
      invariant profits == Profits(assetValue, position, i)
      invariant losses == Losses(assetValue, position, i)
      invariant drawdown == Drawdowns(strategyValue, i)
    {
      mae, mfe := RecordExcursions(assetValue, position, period, i, signal[i], mae, mfe);
      holdDays := RecordHolding(position, i, holdDays);
      cost, signalAmount, profits, losses :=
        RecordTrade(assetValue, position, i, signal[i], cost, signalAmount, profits, losses);
      drawdown := RecordDrawdown(strategyValue, i, drawdown);
    }

    t := Tally(mae, mfe, holdDays, profits, losses, drawdown, signalAmount);
    BookkeepingConsistent(assetValue, strategyValue, position, period);
    report := Summary(t, testTradingDays);
  }
}
