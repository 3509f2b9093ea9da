/**
 * The fundamentals gate, check_fundamentals (stock_screener.py:233-279): a
 * verdict over the quarterly financials table of one ticker, for the
 * direction of its crossing.
 */
module Fundamentals {
  import opened Wrappers
  import opened Strings
  import opened Config

  /** One reporting quarter: its date (as a day number) and the value of each line item (None is NaN). */
  datatype Period = Period(date: int, values: map<string, Option<real>>)

  /** The transposed quarterly financials: line-item names in column order, and the quarters. */
  datatype Financials = Financials(items: seq<string>, periods: seq<Period>)

  /** What the fundamentals provider gave: a table, or an exception with its message. */
  datatype FinSource = Fetched(table: Financials) | FetchFailed(message: string)

  /** The (passed, reason) pair check_fundamentals returns. */
  datatype Verdict = Verdict(passed: bool, reason: string)

  const RevenueItem: string := "Total Revenue"

  /** The value of a line item in a quarter; an item the quarter lacks is NaN. */
  function Cell(p: Period, item: string): Option<real>
  {
    if item in p.values then p.values[item] else None
  }

  // ---- sort_index(ascending=False) ----

  predicate SortedDesc(ps: seq<Period>)
  {
    forall i, j :: 0 <= i < j < |ps| ==> ps[i].date >= ps[j].date
  }

  predicate StrictlyDesc(ps: seq<Period>)
  {
    forall i, j :: 0 <= i < j < |ps| ==> ps[i].date > ps[j].date
  }

  /** Inserts `p` into a most-recent-first sequence, ahead of the quarters with the same date. */
  function Insert(p: Period, ps: seq<Period>): (r: seq<Period>)
    ensures multiset(r) == multiset(ps) + multiset{p}
    ensures |r| == |ps| + 1
  {
    if ps == [] then [p]
    else if ps[0].date <= p.date then [p] + ps
    else
      assert ps == [ps[0]] + ps[1..];
      [ps[0]] + Insert(p, ps[1..])
  }

  /** Every quarter of `Insert(p, ps)` is `p` or a quarter of `ps`. */
  lemma InsertMembers(p: Period, ps: seq<Period>, q: Period)
    requires q in Insert(p, ps)
    ensures q == p || q in ps
  {
    assert q in multiset(Insert(p, ps));
  }

  lemma {:induction false} InsertSorted(p: Period, ps: seq<Period>)
    requires SortedDesc(ps)
    ensures SortedDesc(Insert(p, ps))
    decreases |ps|
  {
    if ps != [] && ps[0].date > p.date {
      InsertSorted(p, ps[1..]);
      var rest := Insert(p, ps[1..]);
      forall q | q in rest ensures ps[0].date >= q.date {
        InsertMembers(p, ps[1..], q);
      }
      var r := [ps[0]] + rest;
      forall i, j | 0 <= i < j < |r| ensures r[i].date >= r[j].date {
        if i == 0 { assert r[j] in rest; }
        else { assert r[i] == rest[i - 1] && r[j] == rest[j - 1]; }
      }
    }
  }

  /** Most-recent-first order of the quarters, keeping equal dates in input order. */
  function SortDesc(ps: seq<Period>): (r: seq<Period>)
    ensures multiset(r) == multiset(ps)
    ensures SortedDesc(r)
  {
    if ps == [] then []
    else
      assert ps == [ps[0]] + ps[1..];
      InsertSorted(ps[0], SortDesc(ps[1..]));
      Insert(ps[0], SortDesc(ps[1..]))
  }

  // ---- index.duplicated(keep='first') ----

  /** The set of dates of a sequence of quarters. */
  function Dates(ps: seq<Period>): set<int>
  {
    if ps == [] then {} else Dates(ps[..|ps| - 1]) + {ps[|ps| - 1].date}
  }

  lemma {:induction false} DatesMember(ps: seq<Period>, d: int)
    ensures d in Dates(ps) <==> exists i :: 0 <= i < |ps| && ps[i].date == d
    decreases |ps|
  {
    if ps != [] {
      var init := ps[..|ps| - 1];
      DatesMember(init, d);
      if exists i :: 0 <= i < |init| && init[i].date == d {
        var i :| 0 <= i < |init| && init[i].date == d;
        assert ps[i].date == d;
      }
    }
  }

  /** Sequences holding the same quarters have the same dates. */
  lemma DatesOfPermutation(a: seq<Period>, b: seq<Period>)
    requires multiset(a) == multiset(b)
    ensures Dates(a) == Dates(b)
  {
    forall d ensures d in Dates(a) <==> d in Dates(b) {
      DatesMember(a, d);
      DatesMember(b, d);
      if exists i :: 0 <= i < |a| && a[i].date == d {
        var i :| 0 <= i < |a| && a[i].date == d;
        assert a[i] in multiset(b);
        var j :| 0 <= j < |b| && b[j] == a[i];
      }
      if exists j :: 0 <= j < |b| && b[j].date == d {
        var j :| 0 <= j < |b| && b[j].date == d;
        assert b[j] in multiset(a);
        var i :| 0 <= i < |a| && a[i] == b[j];
      }
    }
  }

  /** `index.duplicated(keep='first')` removed: drops every quarter whose date already occurred earlier. */
  function Dedupe(ps: seq<Period>): seq<Period>
  {
    if ps == [] then []
    else
      var init := ps[..|ps| - 1];
      if ps[|ps| - 1].date in Dates(init) then Dedupe(init) else Dedupe(init) + [ps[|ps| - 1]]
  }

  /** Deduplication keeps exactly the input's dates, each of them once. */
  lemma {:induction false} DedupeDates(ps: seq<Period>)
    ensures Dates(Dedupe(ps)) == Dates(ps)
    ensures |Dedupe(ps)| == |Dates(ps)|
    decreases |ps|
  {
    if ps != [] {
      var init := ps[..|ps| - 1];
      var last := ps[|ps| - 1];
      DedupeDates(init);
      if last.date !in Dates(init) {
        var r := Dedupe(init) + [last];
        assert r[..|r| - 1] == Dedupe(init);
      }
    }
  }

  /** Deduplication keeps only quarters of its input. */
  lemma {:induction false} DedupeMembers(ps: seq<Period>)
    ensures forall i :: 0 <= i < |Dedupe(ps)| ==> Dedupe(ps)[i] in ps
    decreases |ps|
  {
    if ps != [] {
      var init := ps[..|ps| - 1];
      DedupeMembers(init);
      var d := Dedupe(init);
      forall i | 0 <= i < |d| ensures d[i] in ps {
        var k :| 0 <= k < |init| && init[k] == d[i];
        assert ps[k] == d[i];
      }
    }
  }

  /** On a most-recent-first input, the kept dates strictly decrease. */
  lemma {:induction false} DedupeStrictlyDesc(ps: seq<Period>)
    requires SortedDesc(ps)
    ensures StrictlyDesc(Dedupe(ps))
    decreases |ps|
  {
    if ps != [] {
      var init := ps[..|ps| - 1];
      var last := ps[|ps| - 1];
      assert SortedDesc(init);
      DedupeStrictlyDesc(init);
      DedupeMembers(init);
      var d := Dedupe(init);
      if last.date !in Dates(init) {
        forall i | 0 <= i < |d| ensures d[i].date > last.date {
          var k :| 0 <= k < |init| && init[k] == d[i];
          assert ps[k] == d[i];
          DatesMember(init, d[i].date);
        }
        var r := d + [last];
        assert StrictlyDesc(r) by {
          forall i, j | 0 <= i < j < |r| ensures r[i].date > r[j].date {
            if j < |d| { assert r[i] == d[i] && r[j] == d[j]; }
          }
        }
      }
    }
  }

  /** The deduplicated, most-recent-first quarters the checks read. */
  function Latest(ps: seq<Period>): (r: seq<Period>)
    ensures |r| == |Dates(ps)|
    ensures Dates(r) == Dates(ps)
    ensures StrictlyDesc(r)
    ensures forall i :: 0 <= i < |r| ==> r[i] in ps
  {
    var sorted := SortDesc(ps);
    DedupeDates(sorted);
    DedupeMembers(sorted);
    DedupeStrictlyDesc(sorted);
    DatesOfPermutation(sorted, ps);
    assert forall i :: 0 <= i < |Dedupe(sorted)| ==> Dedupe(sorted)[i] in multiset(ps);
    Dedupe(sorted)
  }

  // ---- checks ----

  /** A column name the EPS search accepts. */
  predicate IsEpsItem(c: string)
  {
    Contains(c, "Basic EPS") || Contains(c, "Diluted EPS")
  }

  /** Index of the first EPS column at position `from` or later. */
  function FirstEpsItem(items: seq<string>, from: nat): (r: Option<nat>)
    ensures r.Some? ==>
      && from <= r.value < |items| && IsEpsItem(items[r.value])
      && forall j :: from <= j < r.value ==> !IsEpsItem(items[j])
    ensures r.None? ==> forall j :: from <= j < |items| ==> !IsEpsItem(items[j])
    decreases |items| - from
  {
    if from >= |items| then None
    else if IsEpsItem(items[from]) then Some(from)
    else FirstEpsItem(items, from + 1)
  }

  /** Strictly increasing (bullish) or strictly decreasing (otherwise) from two quarters ago to now; false on NaN. */
  predicate Trend(mode: Direction, now: Option<real>, ago1: Option<real>, ago2: Option<real>)
  {
    if mode == Bullish then Gt(now, ago1) && Gt(ago1, ago2) else Lt(now, ago1) && Lt(ago1, ago2)
  }

  /** The reason a failed revenue trend reports, named after the direction asked for. */
  function RevFailure(mode: Direction): string
  {
    if mode == Bullish then "Rev Not Growing" else "Rev Not Declining"
  }

  /** The reason a failed EPS trend reports, named after the direction asked for. */
  function EpsFailure(mode: Direction): string
  {
    if mode == Bullish then "EPS Not Growing" else "EPS Not Declining"
  }

  /**
   * The verdict on a fetched table, checks in the source's order; the first
   * failing one names the reason, and a table that passes the first three is
   * judged on its three most recent quarters.
   */
  function CheckTable(fin: Financials, mode: Direction): (v: Verdict)
    ensures v.passed <==> v.reason == "Passed"
    ensures v.reason == "No Financial Data" <==> |fin.items| == 0 || |fin.periods| == 0
    ensures v.reason == "Insufficient Quarters" <==> |fin.items| > 0 && |fin.periods| > 0 && |Dates(fin.periods)| < 3
    ensures v.reason == "Revenue Data Missing" <==>
      |fin.items| > 0 && |Dates(fin.periods)| >= 3 && RevenueItem !in fin.items
    ensures |fin.items| > 0 && |Dates(fin.periods)| >= 3 && RevenueItem in fin.items ==>
      var q := Latest(fin.periods); |q| >= 3 && v == TrendVerdict(fin.items, q[0], q[1], q[2], mode)
  {
    if |fin.items| == 0 || |fin.periods| == 0 then Verdict(false, "No Financial Data")
    else
      var q := Latest(fin.periods);
      if |q| < 3 then Verdict(false, "Insufficient Quarters")
      else if RevenueItem !in fin.items then Verdict(false, "Revenue Data Missing")
      else TrendVerdict(fin.items, q[0], q[1], q[2], mode)
  }

  /**
   * The two trend checks on the three most recent quarters `now`, `ago1`,
   * `ago2`: revenue first, then the first EPS column; each failure names its
   * metric and the direction.
   */
  function TrendVerdict(items: seq<string>, now: Period, ago1: Period, ago2: Period, mode: Direction): (v: Verdict)
    ensures v.passed <==> v.reason == "Passed"
    ensures v.reason in {"Passed", RevFailure(mode), "EPS Key Missing", EpsFailure(mode)}
    ensures v.reason == RevFailure(mode) <==>
      !Trend(mode, Cell(now, RevenueItem), Cell(ago1, RevenueItem), Cell(ago2, RevenueItem))
    ensures v.reason == "EPS Key Missing" <==>
      Trend(mode, Cell(now, RevenueItem), Cell(ago1, RevenueItem), Cell(ago2, RevenueItem))
      && FirstEpsItem(items, 0).None?
    ensures v.reason == EpsFailure(mode) <==>
      && Trend(mode, Cell(now, RevenueItem), Cell(ago1, RevenueItem), Cell(ago2, RevenueItem))
      && FirstEpsItem(items, 0).Some?
      && var key := items[FirstEpsItem(items, 0).value];
         !Trend(mode, Cell(now, key), Cell(ago1, key), Cell(ago2, key))
  {
    if !Trend(mode, Cell(now, RevenueItem), Cell(ago1, RevenueItem), Cell(ago2, RevenueItem)) then
      Verdict(false, RevFailure(mode))
    else match FirstEpsItem(items, 0)
      case None => Verdict(false, "EPS Key Missing")
      case Some(k) =>
        var key := items[k];
        if !Trend(mode, Cell(now, key), Cell(ago1, key), Cell(ago2, key)) then
          Verdict(false, EpsFailure(mode))
        else Verdict(true, "Passed")
  }

  /** check_fundamentals: a failed fetch becomes a failed verdict carrying the error message. */
  function CheckFundamentals(src: FinSource, mode: Direction): (v: Verdict)
    ensures v.passed <==> v.reason == "Passed"
    ensures src.FetchFailed? ==> !v.passed && v.reason == "Error: " + src.message
    ensures src.Fetched? ==> v == CheckTable(src.table, mode)
  {
    match src
    case FetchFailed(msg) => assert ("Error: " + msg)[0] == 'E'; Verdict(false, "Error: " + msg)
    case Fetched(fin) => CheckTable(fin, mode)
  }
}

/** Properties of the fundamentals verdict. */
module FundamentalsFacts {
  import opened Wrappers
  import opened Config
  import opened Fundamentals

  /** No two quarters of the table share a date. */
  predicate DistinctDates(ps: seq<Period>)
  {
    forall i, j :: 0 <= i < j < |ps| ==> ps[i].date != ps[j].date
  }

  /**
   * `a`, `b`, `c` are quarters of `ps` holding its three most recent distinct
   * dates, most recent first: every other quarter is dated like one of them or
   * earlier than `c`.
   */
  predicate MostRecentThree(ps: seq<Period>, a: Period, b: Period, c: Period)
  {
    && a in ps && b in ps && c in ps
    && a.date > b.date > c.date
    && forall p :: p in ps ==> p.date == a.date || p.date == b.date || p.date == c.date || p.date < c.date
  }

  /** The three quarters the checks read are the three most recent distinct dates of the table. */
  lemma LatestAreMostRecent(ps: seq<Period>)
    requires |Dates(ps)| >= 3
    ensures |Latest(ps)| >= 3
    ensures MostRecentThree(ps, Latest(ps)[0], Latest(ps)[1], Latest(ps)[2])
  {
    var q := Latest(ps);
    forall p | p in ps
      ensures p.date == q[0].date || p.date == q[1].date || p.date == q[2].date || p.date < q[2].date
    {
      DatesMember(ps, p.date);
      DatesMember(q, p.date);
      var j :| 0 <= j < |q| && q[j].date == p.date;
    }
  }

  /** With distinct dates, the three most recent quarters are determined, and they are what the checks read. */
  lemma MostRecentUnique(ps: seq<Period>, a: Period, b: Period, c: Period)
    requires DistinctDates(ps) && MostRecentThree(ps, a, b, c)
    ensures |Dates(ps)| >= 3
    ensures Latest(ps)[0] == a && Latest(ps)[1] == b && Latest(ps)[2] == c
  {
    forall d | d in {a.date, b.date, c.date} ensures d in Dates(ps) {
      var x :| x in {a, b, c} && x.date == d;
      var i :| 0 <= i < |ps| && ps[i] == x;
      DatesMember(ps, d);
    }
    assert |{a.date, b.date, c.date}| == 3;
    SubsetCardinality({a.date, b.date, c.date}, Dates(ps));
    LatestAreMostRecent(ps);
    var q := Latest(ps);
    assert q[0].date == a.date && q[1].date == b.date && q[2].date == c.date;
    SameDateSameQuarter(ps, q[0], a);
    SameDateSameQuarter(ps, q[1], b);
    SameDateSameQuarter(ps, q[2], c);
  }

  lemma SubsetCardinality(s: set<int>, t: set<int>)
    requires s <= t
    ensures |s| <= |t|
  {
    assert t == s + (t - s);
  }

  lemma SameDateSameQuarter(ps: seq<Period>, x: Period, y: Period)
    requires DistinctDates(ps) && x in ps && y in ps && x.date == y.date
    ensures x == y
  {
    var i :| 0 <= i < |ps| && ps[i] == x;
    var j :| 0 <= j < |ps| && ps[j] == y;
  }

  /**
   * The pass condition without reference to sorting: on a table whose
   * quarters have distinct dates, the ticker passes iff the table has line
   * items, "Total Revenue" is one of them, revenue follows the direction's
   * strict trend over the three most recent quarters, some EPS column exists,
   * and the first one follows the same trend.
   */
  lemma PassedIffMostRecent(fin: Financials, mode: Direction, a: Period, b: Period, c: Period)
    requires DistinctDates(fin.periods) && MostRecentThree(fin.periods, a, b, c)
    ensures CheckTable(fin, mode).passed <==>
      && |fin.items| > 0
      && RevenueItem in fin.items
      && Trend(mode, Cell(a, RevenueItem), Cell(b, RevenueItem), Cell(c, RevenueItem))
      && FirstEpsItem(fin.items, 0).Some?
      && var key := fin.items[FirstEpsItem(fin.items, 0).value];
         Trend(mode, Cell(a, key), Cell(b, key), Cell(c, key))
  {
    MostRecentUnique(fin.periods, a, b, c);
  }

  /** A table with fewer than three distinct quarter dates never passes. */
  /** A trend needs all three values, each strictly beyond the one before in the mode's direction. */
  lemma TrendIsStrict(mode: Direction, now: Option<real>, ago1: Option<real>, ago2: Option<real>)
    ensures Trend(mode, now, ago1, ago2) <==>
      && now.Some? && ago1.Some? && ago2.Some?
      && (if mode == Bullish then ago2.value < ago1.value < now.value else ago2.value > ago1.value > now.value)
  {
  }

  lemma FewQuartersFail(fin: Financials, mode: Direction)
    requires |Dates(fin.periods)| < 3
    ensures !CheckTable(fin, mode).passed
    ensures |fin.items| > 0 && |fin.periods| > 0 ==> CheckTable(fin, mode).reason == "Insufficient Quarters"
  {
  }

  /**
   * A failure on a table that has three quarters names the metric that broke
   * the trend: a revenue reason means revenue is not monotone in the
   * direction, an EPS-trend reason means revenue was and EPS is not.
   */
  lemma FailureNamesMetric(fin: Financials, mode: Direction)
    requires |fin.items| > 0 && |Dates(fin.periods)| >= 3 && RevenueItem in fin.items
    ensures var q := Latest(fin.periods); var v := CheckTable(fin, mode);
      && |q| >= 3
      && (v.reason == RevFailure(mode) <==>
            !Trend(mode, Cell(q[0], RevenueItem), Cell(q[1], RevenueItem), Cell(q[2], RevenueItem)))
      && (v.reason == "EPS Key Missing" <==>
            Trend(mode, Cell(q[0], RevenueItem), Cell(q[1], RevenueItem), Cell(q[2], RevenueItem))
            && FirstEpsItem(fin.items, 0).None?)
      && (v.reason == EpsFailure(mode) <==>
            && Trend(mode, Cell(q[0], RevenueItem), Cell(q[1], RevenueItem), Cell(q[2], RevenueItem))
            && FirstEpsItem(fin.items, 0).Some?
            && var key := fin.items[FirstEpsItem(fin.items, 0).value];
               !Trend(mode, Cell(q[0], key), Cell(q[1], key), Cell(q[2], key)))
  {
  }
}
