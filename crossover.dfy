/**
 * The per-ticker technical stage of analyze_batch (stock_screener.py:305-371):
 * the history, price and liquidity gates, then the scan of the trailing window
 * for the first crossing of SMA50 and SMA200.
 */
module Crossover {
  import opened Wrappers
  import opened Config
  import opened MovingAverage

  /** One trading day of a ticker's adjusted history. */
  datatype Bar = Bar(date: string, close: real, volume: real)

  /** A ticker's rows in date order; `None` is a row whose every field is NaN. */
  type Series = seq<Option<Bar>>

  /** A downloaded batch: the rows of every ticker the provider returned. */
  type Frame = map<string, Series>

  /** A crossing found by the scan: its direction and its index within the scanned window. */
  datatype Cross = Cross(dir: Direction, index: nat)

  /** A ticker that passed every technical test. */
  datatype TechMatch = TechMatch(
    ticker: string,
    mode: Direction,
    price: real,            // last close
    yearChange: Option<real>, // 1-year % change; None when the first close is 0 (not finite)
    date: string,           // date of the crossing row
    liquidity: real)        // SMA50 of close times SMA50 of volume, on the last row

  /** What happens to one ticker, in the order the source tests. */
  datatype Screen =
    | Absent           // not among the downloaded tickers
    | TooShort         // fewer than 200 rows
    | NoData           // only all-NaN rows: reading the last close raises and the ticker is skipped
    | PennyStock       // last close at or below 10
    | Illiquid         // counted in liquid_fail
    | WindowTooShort   // fewer than 2 rows in the scanned window
    | NoCross          // counted in no_cross
    | Signal(m: TechMatch) // counted in bull_cross or bear_cross

  /** `df.dropna(how='all')`: the rows that are not entirely NaN, in order. */
  function DropNa(s: Series): (bars: seq<Bar>)
    ensures |bars| <= |s|
    ensures forall b :: b in bars <==> Some(b) in s
  {
    if s == [] then []
    else
      var rest := DropNa(s[1..]);
      assert forall b :: Some(b) in s <==> Some(b) == s[0] || Some(b) in s[1..];
      if s[0].Some? then [s[0].value] + rest else rest
  }

  function Closes(bars: seq<Bar>): (r: seq<real>)
    ensures |r| == |bars| && forall i :: 0 <= i < |bars| ==> r[i] == bars[i].close
  {
    seq(|bars|, i requires 0 <= i < |bars| => bars[i].close)
  }

  function Volumes(bars: seq<Bar>): (r: seq<real>)
    ensures |r| == |bars| && forall i :: 0 <= i < |bars| ==> r[i] == bars[i].volume
  {
    seq(|bars|, i requires 0 <= i < |bars| => bars[i].volume)
  }

  /** The direction of the crossing on day i of the window (day i-1 is the previous day), if any. */
  function CrossAt(s50: seq<Option<real>>, s200: seq<Option<real>>, i: nat): (r: Option<Direction>)
    requires |s50| == |s200| && 1 <= i < |s50|
    ensures r.Some? ==> s50[i - 1].Some? && s200[i - 1].Some? && s50[i].Some? && s200[i].Some?
    ensures r == Some(Bullish) ==> s50[i - 1].value <= s200[i - 1].value && s50[i].value > s200[i].value
    ensures r == Some(Bearish) ==> s50[i - 1].value >= s200[i - 1].value && s50[i].value < s200[i].value
  {
    if Le(s50[i - 1], s200[i - 1]) && Gt(s50[i], s200[i]) then Some(Bullish)
    else if Ge(s50[i - 1], s200[i - 1]) && Lt(s50[i], s200[i]) then Some(Bearish)
    else None
  }

  /** The first crossing at day `from` or later: the earliest one, never a later one. */
  function FirstCrossFrom(s50: seq<Option<real>>, s200: seq<Option<real>>, from: nat): (r: Option<Cross>)
    requires |s50| == |s200| && 1 <= from
    ensures r.Some? ==>
      && from <= r.value.index < |s50|
      && CrossAt(s50, s200, r.value.index) == Some(r.value.dir)
      && forall j :: from <= j < r.value.index ==> CrossAt(s50, s200, j).None?
    ensures r.None? ==> forall j :: from <= j < |s50| ==> CrossAt(s50, s200, j).None?
    decreases |s50| - from
  {
    if from >= |s50| then None
    else match CrossAt(s50, s200, from)
      case Some(d) => Some(Cross(d, from))
      case None => FirstCrossFrom(s50, s200, from + 1)
  }

  /** The 1-year change in percent; a zero first close gives a non-finite value under numpy. */
  function YearChange(first: real, last: real): (r: Option<real>)
    ensures r.Some? <==> first != 0.0
  {
    if first == 0.0 then None else Some((last - first) / first * 100.0)
  }

  /** The outcome of the technical stage for one ticker of a downloaded batch. */
  function ScreenSpec(ticker: string, frame: Frame): (r: Screen)
    ensures r == Absent <==> ticker !in frame
    ensures r == TooShort <==> ticker in frame && |frame[ticker]| < MinRows
  {
    if ticker !in frame then Absent
    else if |frame[ticker]| < MinRows then TooShort
    else ScreenRows(ticker, DropNa(frame[ticker]))
  }

  /** The gates and the scan on the rows left after all-NaN rows are dropped. */
  function ScreenRows(ticker: string, bars: seq<Bar>): (r: Screen)
    ensures r != Absent && r != TooShort
    ensures r == NoData <==> bars == []
    ensures r == PennyStock <==> bars != [] && bars[|bars| - 1].close <= MinPrice
  {
    var n := |bars|;
    if n == 0 then NoData
    else
      var price := bars[n - 1].close;
      if price <= MinPrice then PennyStock
      else
        LiquidityGate(ticker, bars, Sma(Closes(bars), ShortWindow), Sma(Closes(bars), LongWindow),
                      Sma(Volumes(bars), ShortWindow))
  }

  /** The liquidity gate on the last row's averages, then the scan. */
  function LiquidityGate(ticker: string, bars: seq<Bar>, sma50: seq<Option<real>>, sma200: seq<Option<real>>,
                         vol50: seq<Option<real>>): (r: Screen)
    requires 0 < |bars| == |sma50| == |sma200| == |vol50|
    ensures r.Illiquid? || r.WindowTooShort? || r.NoCross? || r.Signal?
    ensures var n := |bars|;
      r == Illiquid <==>
        sma50[n - 1].None? || vol50[n - 1].None? || sma50[n - 1].value * vol50[n - 1].value < MinLiquidity
  {
    var n := |bars|;
    if sma50[n - 1].None? || vol50[n - 1].None? || sma50[n - 1].value * vol50[n - 1].value < MinLiquidity then
      Illiquid
    else WindowOutcome(ticker, bars, sma50, sma200, sma50[n - 1].value * vol50[n - 1].value)
  }

  /** The scan of the last LookbackDays + 1 rows of a liquid ticker. */
  function WindowOutcome(ticker: string, bars: seq<Bar>, sma50: seq<Option<real>>, sma200: seq<Option<real>>,
                         liquidity: real): (r: Screen)
    requires 0 < |bars| == |sma50| == |sma200|
    ensures r.WindowTooShort? || r.NoCross? || r.Signal?
    ensures r == WindowTooShort <==> |bars| < 2
    ensures r.Signal? ==> r.m.ticker == ticker && r.m.liquidity == liquidity
  {
    var n := |bars|;
    var lo := n - Min(LookbackDays + 1, n);
    if n - lo < 2 then WindowTooShort
    else ScanOutcome(ticker, bars, lo, liquidity, FirstCrossFrom(sma50[lo..], sma200[lo..], 1))
  }

  /** The record the scan's result turns into: a match dated on the crossing row, or no cross. */
  function ScanOutcome(ticker: string, bars: seq<Bar>, lo: nat, liquidity: real, c: Option<Cross>): (r: Screen)
    requires 0 < |bars| && (c.Some? ==> lo + c.value.index < |bars|)
    ensures r == NoCross <==> c.None?
    ensures c.Some? ==> r.Signal? && r.m.mode == c.value.dir && r.m.date == bars[lo + c.value.index].date
  {
    match c
    case None => NoCross
    case Some(x) =>
      var price := bars[|bars| - 1].close;
      Signal(TechMatch(ticker, x.dir, price, YearChange(bars[0].close, price), bars[lo + x.index].date, liquidity))
  }

  /**
   * The crossover scan (stock_screener.py:341-356): walk the window forward
   * and stop at the first day that crosses; the bullish test runs first.
   */
  method ScanCrossover(s50: seq<Option<real>>, s200: seq<Option<real>>) returns (r: Option<Cross>)
    requires |s50| == |s200|
    ensures r == FirstCrossFrom(s50, s200, 1)
  {
    r := None;
    var i := 1;
    while i < |s50|
      invariant 1 <= i
      invariant FirstCrossFrom(s50, s200, 1) == FirstCrossFrom(s50, s200, i)
    {
      var prev50, prev200, curr50, curr200 := s50[i - 1], s200[i - 1], s50[i], s200[i];
      if Le(prev50, prev200) && Gt(curr50, curr200) {
        r := Some(Cross(Bullish, i));
        break;
      } else if Ge(prev50, prev200) && Lt(curr50, curr200) {
        r := Some(Cross(Bearish, i));
        break;
      }
      i := i + 1;
    }
  }

  /** Screens one ticker as analyze_batch does, running the scan as a loop. */
  method ScreenTicker(ticker: string, frame: Frame) returns (s: Screen)
    ensures s == ScreenSpec(ticker, frame)
  {
    if ticker !in frame { return Absent; }
    if |frame[ticker]| < MinRows { return TooShort; }
    s := ScreenBars(ticker, DropNa(frame[ticker]));
  }

  /**
   * The gates and the scan of `ScreenTicker` on the rows left after all-NaN
   * rows are dropped. `ScreenTicker` is split into this method, `CheckLiquidity`
   * and `ScanWindow` along the split of `ScreenSpec` into `ScreenRows`,
   * `LiquidityGate` and `WindowOutcome`, so that each part is proved against
   * its own function and no proof unfolds the whole chain at once.
   */
  method ScreenBars(ticker: string, bars: seq<Bar>) returns (s: Screen)
    ensures s == ScreenRows(ticker, bars)
  {
    var n := |bars|;
    if n == 0 { return NoData; }
    var price := bars[n - 1].close;
    if price <= MinPrice { return PennyStock; }
    var sma50 := Sma(Closes(bars), ShortWindow);
    var sma200 := Sma(Closes(bars), LongWindow);
    var vol50 := Sma(Volumes(bars), ShortWindow);
    s := CheckLiquidity(ticker, bars, sma50, sma200, vol50);
  }

  /** The liquidity gate of `ScreenBars`, then the scan (one step of the split described at `ScreenBars`). */
  method CheckLiquidity(ticker: string, bars: seq<Bar>, sma50: seq<Option<real>>, sma200: seq<Option<real>>,
                        vol50: seq<Option<real>>) returns (s: Screen)
    requires 0 < |bars| == |sma50| == |sma200| == |vol50|
    ensures s == LiquidityGate(ticker, bars, sma50, sma200, vol50)
  {
    var n := |bars|;
    if sma50[n - 1].None? || vol50[n - 1].None? || sma50[n - 1].value * vol50[n - 1].value < MinLiquidity {
      return Illiquid;
    }
    s := ScanWindow(ticker, bars, sma50, sma200, sma50[n - 1].value * vol50[n - 1].value);
  }

  /** The subset of the last LookbackDays + 1 rows, scanned by the loop (the last step of the split described at `ScreenBars`). */
  method ScanWindow(ticker: string, bars: seq<Bar>, sma50: seq<Option<real>>, sma200: seq<Option<real>>,
                    liquidity: real) returns (s: Screen)
    requires 0 < |bars| == |sma50| == |sma200|
    ensures s == WindowOutcome(ticker, bars, sma50, sma200, liquidity)
  {
    var n := |bars|;
    var lo := n - Min(LookbackDays + 1, n);
    if n - lo < 2 { return WindowTooShort; }
    var c := ScanCrossover(sma50[lo..], sma200[lo..]);
    s := ScanOutcome(ticker, bars, lo, liquidity, c);
  }
}

/** Properties of the technical stage. */
module CrossoverFacts {
  import opened Wrappers
  import opened Config
  import opened MovingAverage
  import opened Crossover

  /** The rows a present ticker is screened on, after all-NaN rows are dropped. */
  function BarsOf(ticker: string, frame: Frame): seq<Bar>
    requires ticker in frame
  {
    DropNa(frame[ticker])
  }

  /** dropna keeps a present row as its bar and drops an all-NaN row. */
  lemma DropNaSingle(row: Option<Bar>)
    ensures DropNa([row]) == (if row.Some? then [row.value] else [])
  {
    assert [row][1..] == [];
  }

  /**
   * dropna works row by row: the rows kept from two stretches of history are
   * those kept from each, in order, so the kept bars keep the input's order
   * and its repeats.
   */
  lemma {:induction false} DropNaAppend(a: Series, b: Series)
    ensures DropNa(a + b) == DropNa(a) + DropNa(b)
    decreases |a|
  {
    if a == [] {
      assert a + b == b;
    } else {
      assert (a + b)[0] == a[0];
      assert (a + b)[1..] == a[1..] + b;
      DropNaAppend(a[1..], b);
    }
  }

  /** First index of the scanned window: the last LookbackDays + 1 rows, or all rows if fewer. */
  function WindowStart(n: nat): (lo: nat)
    ensures lo <= n && n - lo == Min(LookbackDays + 1, n)
  {
    n - Min(LookbackDays + 1, n)
  }

  /** A match is only produced once every gate has been passed, and carries the last row's values. */
  lemma SignalPassedEveryGate(ticker: string, frame: Frame)
    requires ScreenSpec(ticker, frame).Signal?
    ensures ticker in frame && |frame[ticker]| >= MinRows
    ensures var bars := BarsOf(ticker, frame); var m := ScreenSpec(ticker, frame).m;
      && |bars| >= ShortWindow
      && m.ticker == ticker
      && m.price == bars[|bars| - 1].close && m.price > MinPrice
      && m.liquidity >= MinLiquidity
      && m.liquidity == Sma(Closes(bars), ShortWindow)[|bars| - 1].value * Sma(Volumes(bars), ShortWindow)[|bars| - 1].value
      && m.yearChange == YearChange(bars[0].close, bars[|bars| - 1].close)
  {
    RowsSignal(ticker, BarsOf(ticker, frame));
  }

  /** `SignalPassedEveryGate` on the rows left after dropping all-NaN rows, whatever they are. */
  lemma RowsSignal(ticker: string, bars: seq<Bar>)
    requires ScreenRows(ticker, bars).Signal?
    ensures var m := ScreenRows(ticker, bars).m;
      && |bars| >= ShortWindow
      && m.ticker == ticker
      && m.price == bars[|bars| - 1].close && m.price > MinPrice
      && m.liquidity >= MinLiquidity
      && m.liquidity == Sma(Closes(bars), ShortWindow)[|bars| - 1].value * Sma(Volumes(bars), ShortWindow)[|bars| - 1].value
      && m.yearChange == YearChange(bars[0].close, bars[|bars| - 1].close)
  {
    var n := |bars|;
    var s50, s200, v50 := Sma(Closes(bars), ShortWindow), Sma(Closes(bars), LongWindow), Sma(Volumes(bars), ShortWindow);
    assert ScreenRows(ticker, bars) == LiquidityGate(ticker, bars, s50, s200, v50);
    GateSignal(ticker, bars, s50, s200, v50);
    assert n >= ShortWindow by { assert s50[n - 1].Some?; }
  }

  /** What a signal out of the liquidity gate carries, whatever the averages. */
  lemma GateSignal(ticker: string, bars: seq<Bar>, s50: seq<Option<real>>, s200: seq<Option<real>>, v50: seq<Option<real>>)
    requires 0 < |bars| == |s50| == |s200| == |v50|
    requires LiquidityGate(ticker, bars, s50, s200, v50).Signal?
    ensures var n := |bars|; var m := LiquidityGate(ticker, bars, s50, s200, v50).m;
      && s50[n - 1].Some? && v50[n - 1].Some?
      && m.ticker == ticker && m.price == bars[n - 1].close
      && m.liquidity == s50[n - 1].value * v50[n - 1].value && m.liquidity >= MinLiquidity
      && m.yearChange == YearChange(bars[0].close, bars[n - 1].close)
  {
  }

  /**
   * Exactly the tickers that reach the liquidity test and fail it are counted
   * as illiquid: fewer than 50 real rows leaves SMA50 undefined, otherwise the
   * product of the two SMA50s is below the floor.
   */
  lemma IlliquidIff(ticker: string, frame: Frame)
    ensures ScreenSpec(ticker, frame) == Illiquid <==>
      && ticker in frame && |frame[ticker]| >= MinRows
      && var bars := BarsOf(ticker, frame); var n := |bars|;
      && n > 0 && bars[n - 1].close > MinPrice
      && (n < ShortWindow
          || Sma(Closes(bars), ShortWindow)[n - 1].value * Sma(Volumes(bars), ShortWindow)[n - 1].value < MinLiquidity)
  {
    if ticker in frame && |frame[ticker]| >= MinRows {
      RowsIlliquidIff(ticker, BarsOf(ticker, frame));
    }
  }

  /** `IlliquidIff` on the rows left after dropping all-NaN rows, whatever they are. */
  lemma RowsIlliquidIff(ticker: string, bars: seq<Bar>)
    ensures var n := |bars|;
      ScreenRows(ticker, bars) == Illiquid <==>
      && n > 0 && bars[n - 1].close > MinPrice
      && (n < ShortWindow
          || Sma(Closes(bars), ShortWindow)[n - 1].value * Sma(Volumes(bars), ShortWindow)[n - 1].value < MinLiquidity)
  {
    var n := |bars|;
    if n > 0 && bars[n - 1].close > MinPrice {
      var s50, s200, v50 := Sma(Closes(bars), ShortWindow), Sma(Closes(bars), LongWindow), Sma(Volumes(bars), ShortWindow);
      assert ScreenRows(ticker, bars) == LiquidityGate(ticker, bars, s50, s200, v50);
      assert s50[n - 1].Some? <==> n >= ShortWindow;
      assert v50[n - 1].Some? <==> n >= ShortWindow;
    }
  }

  /** The "fewer than 2 rows in the window" skip never fires: the liquidity gate already needs 50 rows. */
  lemma WindowNeverShort(ticker: string, frame: Frame)
    ensures ScreenSpec(ticker, frame) != WindowTooShort
  {
  }

  /**
   * A match is the earliest crossing of the trailing window, dated on the row
   * where SMA50 ends up on the other side.
   */
  lemma {:induction false} SignalIsEarliestCross(ticker: string, frame: Frame)
    requires ScreenSpec(ticker, frame).Signal?
    ensures ticker in frame
    ensures var bars := BarsOf(ticker, frame); var n := |bars|; var lo := WindowStart(n);
      var w50 := Sma(Closes(bars), ShortWindow)[lo..]; var w200 := Sma(Closes(bars), LongWindow)[lo..];
      var m := ScreenSpec(ticker, frame).m;
      exists i :: 1 <= i < n - lo
        && CrossAt(w50, w200, i) == Some(m.mode)
        && m.date == bars[lo + i].date
        && (forall j :: 1 <= j < i ==> CrossAt(w50, w200, j).None?)
  {
    RowsEarliestCross(ticker, BarsOf(ticker, frame));
  }

  /** `SignalIsEarliestCross` on the rows left after dropping all-NaN rows, whatever they are. */
  lemma RowsEarliestCross(ticker: string, bars: seq<Bar>)
    requires ScreenRows(ticker, bars).Signal?
    ensures var n := |bars|; var lo := WindowStart(n);
      var w50 := Sma(Closes(bars), ShortWindow)[lo..]; var w200 := Sma(Closes(bars), LongWindow)[lo..];
      var m := ScreenRows(ticker, bars).m;
      exists i :: 1 <= i < n - lo
        && CrossAt(w50, w200, i) == Some(m.mode)
        && m.date == bars[lo + i].date
        && (forall j :: 1 <= j < i ==> CrossAt(w50, w200, j).None?)
  {
    var s50, s200, v50 := Sma(Closes(bars), ShortWindow), Sma(Closes(bars), LongWindow), Sma(Volumes(bars), ShortWindow);
    assert ScreenRows(ticker, bars) == LiquidityGate(ticker, bars, s50, s200, v50);
    GateEarliestCross(ticker, bars, s50, s200, v50);
  }

  /** A signal out of the liquidity gate is the earliest crossing of the window, whatever the averages. */
  lemma GateEarliestCross(ticker: string, bars: seq<Bar>, s50: seq<Option<real>>, s200: seq<Option<real>>, v50: seq<Option<real>>)
    requires 0 < |bars| == |s50| == |s200| == |v50|
    requires LiquidityGate(ticker, bars, s50, s200, v50).Signal?
    ensures var n := |bars|; var lo := WindowStart(n); var m := LiquidityGate(ticker, bars, s50, s200, v50).m;
      exists i :: 1 <= i < n - lo
        && CrossAt(s50[lo..], s200[lo..], i) == Some(m.mode)
        && m.date == bars[lo + i].date
        && (forall j :: 1 <= j < i ==> CrossAt(s50[lo..], s200[lo..], j).None?)
  {
    var lo := WindowStart(|bars|);
    var c := FirstCrossFrom(s50[lo..], s200[lo..], 1);
    assert c.Some?;
    assert CrossAt(s50[lo..], s200[lo..], c.value.index) == Some(LiquidityGate(ticker, bars, s50, s200, v50).m.mode);
  }

  /**
   * A crossing needs SMA200 on the previous day, so a ticker needs at least 201
   * rows that are not all NaN: 200 rows before dropping them are not enough.
   */
  lemma {:induction false} SignalNeedsLongAverage(ticker: string, frame: Frame)
    requires ScreenSpec(ticker, frame).Signal?
    ensures ticker in frame && |BarsOf(ticker, frame)| > LongWindow
  {
    RowsNeedLongAverage(ticker, BarsOf(ticker, frame));
  }

  /** `SignalNeedsLongAverage` on the rows left after dropping all-NaN rows, whatever they are. */
  lemma {:induction false} RowsNeedLongAverage(ticker: string, bars: seq<Bar>)
    requires ScreenRows(ticker, bars).Signal?
    ensures |bars| > LongWindow
  {
    RowsEarliestCross(ticker, bars);
    var n := |bars|;
    var lo := WindowStart(n);
    var s200 := Sma(Closes(bars), LongWindow);
    var w50, w200 := Sma(Closes(bars), ShortWindow)[lo..], s200[lo..];
    var i :| 1 <= i < n - lo && CrossAt(w50, w200, i) == Some(ScreenRows(ticker, bars).m.mode);
    assert w200[i - 1] == s200[lo + i - 1];
  }

  /** Tie-breaks: equal then greater is bullish, equal then less is bearish, equal then equal is nothing. */
  lemma EqualityTieBreaks(s50: seq<Option<real>>, s200: seq<Option<real>>, i: nat)
    requires |s50| == |s200| && 1 <= i < |s50|
    requires s50[i - 1].Some? && s50[i - 1] == s200[i - 1]
    ensures Gt(s50[i], s200[i]) ==> CrossAt(s50, s200, i) == Some(Bullish)
    ensures Lt(s50[i], s200[i]) ==> CrossAt(s50, s200, i) == Some(Bearish)
    ensures s50[i].Some? && s50[i] == s200[i] ==> CrossAt(s50, s200, i) == None
  {
  }

  /** If the two averages are equal on every day of the window, no crossing is found. */
  lemma FlatWindowNoCross(s50: seq<Option<real>>, s200: seq<Option<real>>)
    requires |s50| == |s200|
    requires forall j :: 0 <= j < |s50| ==> s50[j].Some? && s50[j] == s200[j]
    ensures FirstCrossFrom(s50, s200, 1) == None
  {
  }

  /** With SMA200 undefined (NaN) on every day of the window, every comparison is false and nothing crosses. */
  lemma UndefinedLongAverageNoCross(s50: seq<Option<real>>, s200: seq<Option<real>>)
    requires |s50| == |s200|
    requires forall j :: 0 <= j < |s200| ==> s200[j].None?
    ensures FirstCrossFrom(s50, s200, 1) == None
  {
  }

  /** A ticker that passed the row, price and liquidity gates: it reaches the crossover scan. */
  predicate ReachesScan(ticker: string, frame: Frame)
  {
    && ticker in frame && |frame[ticker]| >= MinRows
    && var bars := BarsOf(ticker, frame);
    && |bars| > 0 && bars[|bars| - 1].close > MinPrice
    && LiquidAt(bars, Sma(Closes(bars), ShortWindow), Sma(Volumes(bars), ShortWindow))
  }

  /** The liquidity test on the last row: both 50-day means defined, and their product at least the floor. */
  predicate LiquidAt(bars: seq<Bar>, s50: seq<Option<real>>, v50: seq<Option<real>>)
    requires 0 < |bars| == |s50| == |v50|
  {
    var n := |bars|;
    s50[n - 1].Some? && v50[n - 1].Some? && s50[n - 1].value * v50[n - 1].value >= MinLiquidity
  }

  /** Some step of the scanned window (the last LookbackDays + 1 days) crosses. */
  predicate WindowCrosses(s50: seq<Option<real>>, s200: seq<Option<real>>)
    requires |s50| == |s200|
  {
    var n := |s50|; var lo := WindowStart(n);
    exists j :: 1 <= j < n - lo && CrossAt(s50[lo..], s200[lo..], j).Some?
  }

  /** Some step of the scanned window of a present ticker crosses, on its rows after dropping NaN rows. */
  predicate CrossesInWindow(ticker: string, frame: Frame)
    requires ticker in frame
  {
    var bars := BarsOf(ticker, frame);
    WindowCrosses(Sma(Closes(bars), ShortWindow), Sma(Closes(bars), LongWindow))
  }

  /**
   * The two outcomes of the scan: a ticker that passed every gate is a
   * signal exactly when some step of its window crosses, and counted as
   * no_cross exactly when none does.
   */
  lemma ScanOutcomeIff(ticker: string, frame: Frame)
    ensures ScreenSpec(ticker, frame).Signal? <==> ReachesScan(ticker, frame) && CrossesInWindow(ticker, frame)
    ensures ScreenSpec(ticker, frame) == NoCross <==> ReachesScan(ticker, frame) && !CrossesInWindow(ticker, frame)
  {
    if ticker in frame && |frame[ticker]| >= MinRows {
      var bars := BarsOf(ticker, frame);
      if |bars| > 0 && bars[|bars| - 1].close > MinPrice {
        var s50, s200, v50 := Sma(Closes(bars), ShortWindow), Sma(Closes(bars), LongWindow), Sma(Volumes(bars), ShortWindow);
        assert ScreenSpec(ticker, frame) == LiquidityGate(ticker, bars, s50, s200, v50);
        assert s50[|bars| - 1].Some? ==> |bars| >= 2;
        GateScanIff(ticker, bars, s50, s200, v50);
      }
    }
  }

  /** The scan outcomes out of the liquidity gate, whatever the averages. */
  lemma GateScanIff(ticker: string, bars: seq<Bar>, s50: seq<Option<real>>, s200: seq<Option<real>>, v50: seq<Option<real>>)
    requires 0 < |bars| == |s50| == |s200| == |v50|
    ensures var g := LiquidityGate(ticker, bars, s50, s200, v50);
      && (g.Signal? <==> LiquidAt(bars, s50, v50) && WindowCrosses(s50, s200))
      && (g == NoCross <==> LiquidAt(bars, s50, v50) && |bars| >= 2 && !WindowCrosses(s50, s200))
  {
    var n := |bars|;
    var lo := WindowStart(n);
    if LiquidAt(bars, s50, v50) && n - lo >= 2 {
      var c := FirstCrossFrom(s50[lo..], s200[lo..], 1);
      if c.Some? {
        assert CrossAt(s50[lo..], s200[lo..], c.value.index).Some?;
      }
    }
  }
}
