/**
 * The result record built for each technical match once its fundamentals
 * verdict is in (stock_screener.py:387-401).
 */
module Records {
  import opened Wrappers
  import opened Config
  import opened Crossover
  import opened Fundamentals

  /** One row of the report. Numbers are kept exact; their string formatting is not modelled. */
  datatype Record = Record(
    ticker: string,
    category: string,
    signal: string,
    fundamentals: string,
    price: real,
    yearChange: Option<real>,
    liquidity: real,
    date: string)

  /** Direction crossed with confirmation; the category reads back as the direction and the pass flag it came from. */
  function Category(mode: Direction, passed: bool): (c: string)
    ensures ParseCategory(c) == Some((mode, passed))
  {
    CategoryParses(mode, passed);
    if mode == Bullish then (if passed then "Bullish (Confirmed)" else "Bullish (Speculative)")
    else (if passed then "Bearish (Confirmed)" else "Bearish (Speculative)")
  }

  lemma CategoryParses(mode: Direction, passed: bool)
    ensures ParseCategory(if mode == Bullish then (if passed then "Bullish (Confirmed)" else "Bullish (Speculative)")
                          else (if passed then "Bearish (Confirmed)" else "Bearish (Speculative)")) == Some((mode, passed))
  {
  }

  /** Reads a category back into its direction and confirmation; the four categories and nothing else. */
  function ParseCategory(c: string): Option<(Direction, bool)>
  {
    if c == "Bullish (Confirmed)" then Some((Bullish, true))
    else if c == "Bullish (Speculative)" then Some((Bullish, false))
    else if c == "Bearish (Confirmed)" then Some((Bearish, true))
    else if c == "Bearish (Speculative)" then Some((Bearish, false))
    else None
  }

  /** The signal column: GOLDEN for a golden cross, DEATH for a death cross. */
  function SignalLabel(mode: Direction): (l: string)
    ensures l == "GOLDEN" <==> mode == Bullish
    ensures l == "DEATH" <==> mode == Bearish
  {
    match mode
    case Bullish => assert "GOLDEN"[0] != "DEATH"[0]; "GOLDEN"
    case Bearish => assert "GOLDEN"[0] != "DEATH"[0]; "DEATH"
  }

  /** The fundamentals column: PASSED, or the failure reason wrapped as `FAIL (reason)`. */
  function FundamentalsLabel(v: Verdict): (l: string)
    ensures l == "PASSED" <==> v.passed
    ensures !v.passed ==>
      && |l| == |v.reason| + 7
      && l[..6] == "FAIL (" && l[6..|l| - 1] == v.reason && l[|l| - 1] == ')'
  {
    if v.passed then "PASSED"
    else
      var l := "FAIL (" + v.reason + ")";
      assert l[0] == 'F';
      assert l[6..|l| - 1] == v.reason;
      l
  }

  /** The record of one match: its own fields carried over, the three labels derived from mode and verdict. */
  function MakeRecord(m: TechMatch, v: Verdict): (r: Record)
    ensures r.ticker == m.ticker && r.price == m.price && r.yearChange == m.yearChange
    ensures r.liquidity == m.liquidity && r.date == m.date
    ensures ParseCategory(r.category) == Some((m.mode, v.passed))
    ensures r.signal == (if m.mode == Bullish then "GOLDEN" else "DEATH")
    ensures r.fundamentals == (if v.passed then "PASSED" else "FAIL (" + v.reason + ")")
  {
    Record(m.ticker, Category(m.mode, v.passed), SignalLabel(m.mode), FundamentalsLabel(v),
           m.price, m.yearChange, m.liquidity, m.date)
  }

  /** Only the four category strings parse, and each parses back to the one it came from. */
  lemma ParseCategoryInverse(c: string)
    requires ParseCategory(c).Some?
    ensures Category(ParseCategory(c).value.0, ParseCategory(c).value.1) == c
  {
  }

  /** The fundamentals column determines the verdict: whether it passed, and if not, its reason. */
  lemma FundamentalsLabelInjective(v: Verdict, w: Verdict)
    requires FundamentalsLabel(v) == FundamentalsLabel(w)
    ensures v.passed == w.passed
    ensures !v.passed ==> v.reason == w.reason
  {
    var l := FundamentalsLabel(v);
    if !v.passed {
      assert l[6..|l| - 1] == v.reason && l[6..|l| - 1] == w.reason;
    }
  }
}
