/**
 * analyze_batch (stock_screener.py:296-406) and the batch loop of
 * run_auto_screener / main (stock_screener.py:433-438, 460-465).
 */
module Screener {
  import opened Wrappers
  import opened Config
  import opened Crossover
  import opened Fundamentals
  import opened Records
  import opened Download

  /** The market-data provider: the outcome of attempt k at downloading a batch. */
  type MarketData = (seq<string>, nat) -> Attempt

  /** The fundamentals provider: what fetching a ticker's quarterly financials gives. */
  type FundamentalsData = string -> FinSource

  /** The per-batch `stats` counters. */
  datatype Tally = Tally(liquidFail: nat, bullCross: nat, bearCross: nat, noCross: nat)

  /** The attempts at downloading one batch. */
  function BatchOutcomes(market: MarketData, batch: seq<string>): Provider
  {
    (k: nat) => market(batch, k)
  }

  /** The technical verdict of every ticker of the batch, in batch order. */
  function Screens(batch: seq<string>, frame: Frame): (r: seq<Screen>)
    ensures |r| == |batch| && forall i :: 0 <= i < |batch| ==> r[i] == ScreenSpec(batch[i], frame)
  {
    seq(|batch|, i requires 0 <= i < |batch| => ScreenSpec(batch[i], frame))
  }

  /**
   * The counter a screen increments, if any: at most one counter goes up, by
   * one, and liquid_fail goes up exactly for an illiquid ticker.
   */
  function Count(t: Tally, s: Screen): (r: Tally)
    ensures r.liquidFail + r.bullCross + r.bearCross + r.noCross
         == t.liquidFail + t.bullCross + t.bearCross + t.noCross + (if s.Illiquid? || s.NoCross? || s.Signal? then 1 else 0)
    ensures r.liquidFail >= t.liquidFail && r.bullCross >= t.bullCross && r.bearCross >= t.bearCross && r.noCross >= t.noCross
    ensures r.liquidFail > t.liquidFail <==> s.Illiquid?
    ensures r.noCross > t.noCross <==> s.NoCross?
    ensures r.bullCross > t.bullCross <==> s.Signal? && s.m.mode == Bullish
    ensures r.bearCross > t.bearCross <==> s.Signal? && s.m.mode == Bearish
  {
    match s
    case Illiquid => t.(liquidFail := t.liquidFail + 1)
    case NoCross => t.(noCross := t.noCross + 1)
    case Signal(m) =>
      (match m.mode
       case Bullish => t.(bullCross := t.bullCross + 1)
       case Bearish => t.(bearCross := t.bearCross + 1))
    case _ => t
  }

  /** The counters after screening `ss` in order; no more counts than screens. */
  function TallyOf(ss: seq<Screen>): (t: Tally)
    ensures t.liquidFail + t.bullCross + t.bearCross + t.noCross <= |ss|
  {
    if ss == [] then Tally(0, 0, 0, 0) else Count(TallyOf(ss[..|ss| - 1]), ss[|ss| - 1])
  }

  /** The technical matches, in batch order. */
  function MatchesOf(ss: seq<Screen>): (ms: seq<TechMatch>)
    ensures |ms| <= |ss|
  {
    if ss == [] then []
    else MatchesOf(ss[..|ss| - 1]) + (if ss[|ss| - 1].Signal? then [ss[|ss| - 1].m] else [])
  }

  /** Screens counted in liquid_fail. */
  function Illiquids(ss: seq<Screen>): nat
  {
    if ss == [] then 0
    else Illiquids(ss[..|ss| - 1]) + (if ss[|ss| - 1].Illiquid? then 1 else 0)
  }

  /** Screens that reached the crossover scan. */
  function Scanned(ss: seq<Screen>): nat
  {
    if ss == [] then 0
    else Scanned(ss[..|ss| - 1]) + (if ss[|ss| - 1].Signal? || ss[|ss| - 1].NoCross? then 1 else 0)
  }

  /** Screening one more ticker adds its match, if any, and bumps its counter. */
  lemma StageStep(ss: seq<Screen>, i: nat)
    requires i < |ss|
    ensures MatchesOf(ss[..i + 1]) == MatchesOf(ss[..i]) + (if ss[i].Signal? then [ss[i].m] else [])
    ensures TallyOf(ss[..i + 1]) == Count(TallyOf(ss[..i]), ss[i])
  {
    assert ss[..i + 1][..i] == ss[..i];
  }

  /** The technical stage of a batch: screens every ticker in order, collecting matches and counters. */
  method TechnicalStage(batch: seq<string>, frame: Frame) returns (matches: seq<TechMatch>, tally: Tally)
    ensures matches == MatchesOf(Screens(batch, frame))
    ensures tally == TallyOf(Screens(batch, frame))
  {
    ghost var ss := Screens(batch, frame);
    matches := [];
    tally := Tally(0, 0, 0, 0);
    for i := 0 to |batch|
      invariant matches == MatchesOf(ss[..i])
      invariant tally == TallyOf(ss[..i])
    {
      var s := ScreenTicker(batch[i], frame);
      StageStep(ss, i);
      // The counter updates as the source makes them; `Count` is the function they are proved against.
      match s {
        case Illiquid => tally := tally.(liquidFail := tally.liquidFail + 1);
        case NoCross => tally := tally.(noCross := tally.noCross + 1);
        case Signal(m) =>
          if m.mode == Bullish {
            tally := tally.(bullCross := tally.bullCross + 1);
          } else {
            tally := tally.(bearCross := tally.bearCross + 1);
          }
          matches := matches + [m];
        case _ =>
      }
    }
    assert ss[..|batch|] == ss;
  }

  /** The record for one match, after its fundamentals check. */
  function Confirmed(m: TechMatch, fin: FundamentalsData): Record
  {
    MakeRecord(m, CheckFundamentals(fin(m.ticker), m.mode))
  }

  /** One record per match, in submission order. */
  function ConfirmAll(matches: seq<TechMatch>, fin: FundamentalsData): (r: seq<Record>)
    ensures |r| == |matches|
    ensures forall k :: 0 <= k < |r| ==> r[k] == Confirmed(matches[k], fin)
  {
    seq(|matches|, k requires 0 <= k < |matches| => Confirmed(matches[k], fin))
  }

  /** 0, 1, ..., n - 1. */
  function Iota(n: nat): (r: seq<nat>)
    ensures |r| == n && forall k :: 0 <= k < n ==> r[k] == k
  {
    seq(n, k requires 0 <= k < n => k)
  }

  /** `order` lists every index below n exactly once: a possible order of completion of the n futures. */
  predicate IsPermutation(order: seq<nat>, n: nat)
  {
    |order| == n && (forall k :: 0 <= k < n ==> order[k] < n) && multiset(order) == multiset(Iota(n))
  }

  function MapSeq<A, B>(f: A -> B, a: seq<A>): (r: seq<B>)
    ensures |r| == |a| && forall k :: 0 <= k < |a| ==> r[k] == f(a[k])
  {
    seq(|a|, k requires 0 <= k < |a| => f(a[k]))
  }

  /** Taking out the element at index j. */
  lemma RemoveAt<A>(b: seq<A>, j: nat)
    requires j < |b|
    ensures multiset(b) == multiset(b[..j] + b[j + 1..]) + multiset{b[j]}
  {
    assert b == b[..j] + [b[j]] + b[j + 1..];
  }

  lemma Cancel<A>(p: multiset<A>, q: multiset<A>, x: A)
    requires p + multiset{x} == q + multiset{x}
    ensures p == q
  {
    forall y ensures p[y] == q[y] {
      assert (p + multiset{x})[y] == (q + multiset{x})[y];
    }
  }

  /** Taking out the element at index j before or after mapping. */
  lemma MapRemoveAt<A, B>(f: A -> B, s: seq<A>, j: nat, rest: seq<A>)
    requires j < |s| && rest == s[..j] + s[j + 1..]
    ensures multiset(MapSeq(f, s)) == multiset(MapSeq(f, rest)) + multiset{f(s[j])}
  {
    var m := MapSeq(f, s);
    RemoveAt(m, j);
    assert m[..j] + m[j + 1..] == MapSeq(f, rest);
  }

  /** Two sequences with the same elements, less one occurrence of the same element, still have the same elements. */
  lemma PermTail<A>(a: seq<A>, b: seq<A>, j: nat)
    requires multiset(a) == multiset(b) && a != [] && j < |b| && b[j] == a[0]
    ensures multiset(a[1..]) == multiset(b[..j] + b[j + 1..])
  {
    assert a[..0] + a[1..] == a[1..];
    RemoveAt(a, 0);
    RemoveAt(b, j);
    Cancel(multiset(a[1..]), multiset(b[..j] + b[j + 1..]), a[0]);
  }

  /** Putting the same element back into two mapped sequences with the same elements. */
  lemma MapPermStep<A, B>(f: A -> B, a: seq<A>, b: seq<A>, j: nat, ra: seq<A>, rb: seq<A>)
    requires a != [] && j < |b| && b[j] == a[0] && ra == a[1..] && rb == b[..j] + b[j + 1..]
    requires multiset(MapSeq(f, ra)) == multiset(MapSeq(f, rb))
    ensures multiset(MapSeq(f, a)) == multiset(MapSeq(f, b))
  {
    assert ra == a[..0] + a[1..];
    MapRemoveAt(f, a, 0, ra);
    MapRemoveAt(f, b, j, rb);
  }

  /** Applying one function to two sequences holding the same elements gives sequences holding the same elements. */
  lemma {:induction false} MapPermutation<A, B>(f: A -> B, a: seq<A>, b: seq<A>)
    requires multiset(a) == multiset(b)
    ensures multiset(MapSeq(f, a)) == multiset(MapSeq(f, b))
    decreases |a|
  {
    if a == [] {
      assert |b| == |multiset(b)| == 0;
    } else {
      assert a[0] in multiset(b);
      var j :| 0 <= j < |b| && b[j] == a[0];
      PermTail(a, b, j);
      MapPermutation(f, a[1..], b[..j] + b[j + 1..]);
      MapPermStep(f, a, b, j, a[1..], b[..j] + b[j + 1..]);
    }
  }

  /**
   * The fundamentals stage gathering verdicts as the futures complete, in the
   * completion order `order`: whatever the order, one record per match and
   * the same records as in submission order.
   */
  method CollectCompleted(matches: seq<TechMatch>, fin: FundamentalsData, order: seq<nat>) returns (records: seq<Record>)
    requires IsPermutation(order, |matches|)
    ensures |records| == |matches|
    ensures forall k :: 0 <= k < |records| ==> records[k] == Confirmed(matches[order[k]], fin)
    ensures multiset(records) == multiset(ConfirmAll(matches, fin))
  {
    var submitted := ConfirmAll(matches, fin);
    records := InCompletionOrder(submitted, order);
    PermutedCompletion(order, records, submitted);
  }

  /** The loop over `as_completed`: result `order[k]` is the k-th to be gathered. */
  method InCompletionOrder<B>(submitted: seq<B>, order: seq<nat>) returns (gathered: seq<B>)
    requires IsPermutation(order, |submitted|)
    ensures |gathered| == |submitted| && forall k :: 0 <= k < |gathered| ==> gathered[k] == submitted[order[k]]
  {
    gathered := [];
    for k := 0 to |order|
      invariant |gathered| == k
      invariant forall j :: 0 <= j < k ==> gathered[j] == submitted[order[j]]
    {
      gathered := gathered + [submitted[order[k]]];
    }
  }

  /** Results gathered in a completion order hold the same elements as the results in submission order. */
  lemma PermutedCompletion<B>(order: seq<nat>, gathered: seq<B>, submitted: seq<B>)
    requires IsPermutation(order, |submitted|)
    requires |gathered| == |submitted| && forall k :: 0 <= k < |gathered| ==> gathered[k] == submitted[order[k]]
    ensures multiset(gathered) == multiset(submitted)
  {
    var n := |submitted|;
    if n > 0 {
      var g := (i: nat) => if i < n then submitted[i] else submitted[0];
      MapPermutation(g, order, Iota(n));
      assert gathered == MapSeq(g, order);
      assert submitted == MapSeq(g, Iota(n));
    }
  }

  /** The records one batch contributes: none if its download came back empty. */
  function BatchRecords(batch: seq<string>, market: MarketData, fin: FundamentalsData): (r: seq<Record>)
    ensures |r| <= |batch|
  {
    var frame := RetryFrom(BatchOutcomes(market, batch), 0).frame;
    if frame == EmptyFrame then [] else ConfirmAll(MatchesOf(Screens(batch, frame)), fin)
  }

  /**
   * analyze_batch: download with retry, screen every ticker, then collect
   * the fundamentals verdicts of the matches (here in submission order).
   */
  method AnalyzeBatch(batch: seq<string>, market: MarketData, fin: FundamentalsData)
    returns (records: seq<Record>, tally: Tally, waits: seq<nat>)
    ensures records == BatchRecords(batch, market, fin)
    ensures waits == RetryFrom(BatchOutcomes(market, batch), 0).waits
    ensures var frame := RetryFrom(BatchOutcomes(market, batch), 0).frame;
      tally == (if frame == EmptyFrame then Tally(0, 0, 0, 0) else TallyOf(Screens(batch, frame)))
  {
    var frame, calls;
    frame, waits, calls := DownloadWithRetry(BatchOutcomes(market, batch));
    if frame == EmptyFrame {
      return [], Tally(0, 0, 0, 0), waits;
    }
    var matches;
    matches, tally := TechnicalStage(batch, frame);
    records := CollectCompleted(matches, fin, Iota(|matches|));
    assert records == ConfirmAll(matches, fin);
  }

  // ---- batching ----

  /** The consecutive slices `tickers[i:i+BATCH_SIZE]`. */
  function Batches(xs: seq<string>): seq<seq<string>>
    decreases |xs|
  {
    if xs == [] then []
    else if |xs| <= BatchSize then [xs]
    else [xs[..BatchSize]] + Batches(xs[BatchSize..])
  }

  function Flatten<T>(xss: seq<seq<T>>): seq<T>
  {
    if xss == [] then [] else xss[0] + Flatten(xss[1..])
  }

  /** What `run` yields on each batch, concatenated in batch order. */
  function Gather(bs: seq<seq<string>>, run: seq<string> -> seq<Record>): seq<Record>
  {
    if bs == [] then [] else run(bs[0]) + Gather(bs[1..], run)
  }

  /** analyze_batch as a function of the batch, for a given market and set of financials. */
  function PerBatch(market: MarketData, fin: FundamentalsData): seq<string> -> seq<Record>
  {
    (b: seq<string>) => BatchRecords(b, market, fin)
  }

  /** All records of a run: the batches' records, concatenated in batch order. */
  function Results(bs: seq<seq<string>>, market: MarketData, fin: FundamentalsData): seq<Record>
  {
    Gather(bs, PerBatch(market, fin))
  }

  /** The batch starting at `lo` and the batches after it. */
  lemma BatchesFrom(xs: seq<string>, lo: nat)
    requires lo < |xs|
    ensures Batches(xs[lo..]) == [xs[lo..Min(lo + BatchSize, |xs|)]] + Batches(xs[Min(lo + BatchSize, |xs|)..])
  {
    if |xs| - lo <= BatchSize {
      assert xs[|xs|..] == [];
      assert xs[lo..|xs|] == xs[lo..];
    } else {
      assert xs[lo..][..BatchSize] == xs[lo..lo + BatchSize];
      assert xs[lo..][BatchSize..] == xs[lo + BatchSize..];
    }
  }

  /** One step of the batch loop: the batch at `lo` extends the records gathered so far. */
  lemma GatherFrom(xs: seq<string>, lo: nat, run: seq<string> -> seq<Record>, all: seq<Record>, records: seq<Record>)
    requires lo < |xs|
    requires records == run(xs[lo..Min(lo + BatchSize, |xs|)])
    ensures all + Gather(Batches(xs[lo..]), run) == (all + records) + Gather(Batches(xs[Min(lo + BatchSize, |xs|)..]), run)
  {
    var hi := Min(lo + BatchSize, |xs|);
    var rest := Gather(Batches(xs[hi..]), run);
    BatchesFrom(xs, lo);
    var bs := Batches(xs[lo..]);
    assert bs[0] == xs[lo..hi] && bs[1..] == Batches(xs[hi..]);
    assert all + (records + rest) == (all + records) + rest;
  }

  /** A list that `d` batches cover and `d - 1` do not splits into exactly `d` batches. */
  lemma {:induction false} BatchesLen(xs: seq<string>, d: nat)
    requires 0 < |xs| && (d - 1) * BatchSize < |xs| <= d * BatchSize
    ensures |Batches(xs)| == d
    decreases |xs|
  {
    if |xs| > BatchSize {
      BatchesLen(xs[BatchSize..], d - 1);
    }
  }

  /**
   * The batch loop: one analyze_batch per slice, results extended in order,
   * and a pause after every batch but the last.
   */
  method RunScan(tickers: seq<string>, market: MarketData, fin: FundamentalsData)
    returns (all: seq<Record>, pauses: seq<nat>)
    ensures all == Results(Batches(tickers), market, fin)
    ensures |pauses| == (if tickers == [] then 0 else |Batches(tickers)| - 1)
    ensures forall k :: 0 <= k < |pauses| ==> pauses[k] == SleepTime
  {
    var n := |tickers|;
    all, pauses := [], [];
    var lo := 0;
    ghost var target := Results(Batches(tickers), market, fin);
    ghost var done: nat := 0;
    while lo < n
      invariant lo <= n
      invariant all + Results(Batches(tickers[lo..]), market, fin) == target
      invariant lo == 0 ==> done == 0
      invariant lo < n ==> lo == done * BatchSize
      invariant lo == n > 0 ==> 0 < done && (done - 1) * BatchSize < n <= done * BatchSize
      invariant |pauses| == (if lo == n > 0 then done - 1 else done)
      invariant forall k :: 0 <= k < |pauses| ==> pauses[k] == SleepTime
      decreases n - lo
    {
      var hi := Min(lo + BatchSize, n);
      var records, tally, waits := AnalyzeBatch(tickers[lo..hi], market, fin);
      GatherFrom(tickers, lo, PerBatch(market, fin), all, records);
      all := all + records;
      if hi < n {
        pauses := pauses + [SleepTime];
      }
      lo, done := hi, done + 1;
    }
    if n > 0 {
      BatchesLen(tickers, done);
    }
    assert tickers[n..] == [];
  }
}

/** Properties of a batch's counters and records, and of the batching. */
module ScreenerFacts {
  import opened Wrappers
  import opened Config
  import opened Crossover
  import opened Records
  import opened Download
  import opened Screener

  /**
   * Every ticker that reaches the scan increments exactly one of bull_cross,
   * bear_cross and no_cross, and every crossing is one technical match.
   */
  lemma {:induction false} TallyPartition(ss: seq<Screen>)
    ensures TallyOf(ss).bullCross + TallyOf(ss).bearCross + TallyOf(ss).noCross == Scanned(ss)
    ensures TallyOf(ss).liquidFail == Illiquids(ss)
    ensures |MatchesOf(ss)| == TallyOf(ss).bullCross + TallyOf(ss).bearCross
    decreases |ss|
  {
    if ss != [] {
      TallyPartition(ss[..|ss| - 1]);
    }
  }

  /** The matches are exactly the signals among the screens, in order. */
  lemma {:induction false} MatchesAreSignals(ss: seq<Screen>)
    ensures forall k :: 0 <= k < |MatchesOf(ss)| ==> exists i :: 0 <= i < |ss| && ss[i] == Signal(MatchesOf(ss)[k])
    ensures forall i :: 0 <= i < |ss| && ss[i].Signal? ==> ss[i].m in MatchesOf(ss)
    decreases |ss|
  {
    if ss != [] {
      var init := ss[..|ss| - 1];
      var last := ss[|ss| - 1];
      MatchesAreSignals(init);
      assert MatchesOf(ss) == MatchesOf(init) + (if last.Signal? then [last.m] else []);
      forall k | 0 <= k < |MatchesOf(ss)|
        ensures exists i :: 0 <= i < |ss| && ss[i] == Signal(MatchesOf(ss)[k])
      {
        if k < |MatchesOf(init)| {
          var i :| 0 <= i < |init| && init[i] == Signal(MatchesOf(init)[k]);
          assert ss[i] == init[i] && MatchesOf(ss)[k] == MatchesOf(init)[k];
        } else {
          assert last.Signal? && MatchesOf(ss)[k] == last.m;
          assert ss[|ss| - 1] == Signal(MatchesOf(ss)[k]);
        }
      }
      forall i | 0 <= i < |ss| && ss[i].Signal? ensures ss[i].m in MatchesOf(ss) {
        if i < |init| {
          assert init[i] == ss[i];
        }
      }
    } else {
      assert MatchesOf(ss) == [];
    }
  }

  /**
   * A batch yields one record per technical match, and each record belongs to
   * a ticker of the batch that produced a match; a ticker with no match
   * produces none.
   */
  lemma RecordsComeFromMatches(batch: seq<string>, market: MarketData, fin: FundamentalsData)
    ensures var frame := RetryFrom(BatchOutcomes(market, batch), 0).frame;
      var rs := BatchRecords(batch, market, fin);
      && (frame != EmptyFrame ==> |rs| == |MatchesOf(Screens(batch, frame))|)
      && forall r :: r in rs ==> exists i :: 0 <= i < |batch| && ScreenSpec(batch[i], frame).Signal?
                                        && r.ticker == batch[i] && r == Confirmed(ScreenSpec(batch[i], frame).m, fin)
  {
    var frame := RetryFrom(BatchOutcomes(market, batch), 0).frame;
    if frame != EmptyFrame {
      var ss := Screens(batch, frame);
      ConfirmedSignals(ss, fin);
      forall r | r in BatchRecords(batch, market, fin)
        ensures exists i :: 0 <= i < |batch| && ScreenSpec(batch[i], frame).Signal?
                         && r.ticker == batch[i] && r == Confirmed(ScreenSpec(batch[i], frame).m, fin)
      {
        var i :| 0 <= i < |ss| && ss[i].Signal? && r == Confirmed(ss[i].m, fin);
        SignalCarriesTicker(batch[i], frame);
      }
    }
  }

  /** Every confirmed record is the confirmation of one of the signals. */
  lemma ConfirmedSignals(ss: seq<Screen>, fin: FundamentalsData)
    ensures forall r :: r in ConfirmAll(MatchesOf(ss), fin) ==>
      exists i :: 0 <= i < |ss| && ss[i].Signal? && r == Confirmed(ss[i].m, fin)
  {
    var f := (m: TechMatch) => Confirmed(m, fin);
    var rs := ConfirmAll(MatchesOf(ss), fin);
    MappedSignals(ss, f, rs);
    forall r | r in rs ensures exists i :: 0 <= i < |ss| && ss[i].Signal? && r == Confirmed(ss[i].m, fin) {
      var i :| 0 <= i < |ss| && ss[i].Signal? && r == f(ss[i].m);
    }
  }

  /** Whatever is computed from each match, one result per match, comes from a signal. */
  lemma MappedSignals<B>(ss: seq<Screen>, f: TechMatch -> B, rs: seq<B>)
    requires |rs| == |MatchesOf(ss)| && forall k :: 0 <= k < |rs| ==> rs[k] == f(MatchesOf(ss)[k])
    ensures forall r :: r in rs ==> exists i :: 0 <= i < |ss| && ss[i].Signal? && r == f(ss[i].m)
  {
    var ms := MatchesOf(ss);
    MatchesAreSignals(ss);
    forall r | r in rs
      ensures exists i :: 0 <= i < |ss| && ss[i].Signal? && r == f(ss[i].m)
    {
      var k :| 0 <= k < |ms| && rs[k] == r;
      var i :| 0 <= i < |ss| && ss[i] == Signal(ms[k]);
    }
  }

  lemma SignalCarriesTicker(ticker: string, frame: Frame)
    requires ScreenSpec(ticker, frame).Signal?
    ensures ScreenSpec(ticker, frame).m.ticker == ticker
  {
  }

  /** The batches cover the list in order with no overlap, each holding 1 to BatchSize tickers. */
  lemma {:induction false} BatchesPartition(xs: seq<string>)
    ensures Flatten(Batches(xs)) == xs
    ensures forall k :: 0 <= k < |Batches(xs)| ==> 0 < |Batches(xs)[k]| <= BatchSize
    decreases |xs|
  {
    if |xs| > BatchSize {
      BatchesPartition(xs[BatchSize..]);
      assert xs == xs[..BatchSize] + xs[BatchSize..];
    } else if xs != [] {
      assert Flatten(Batches(xs)) == xs + Flatten([]);
    }
  }

  /** Batch j is the slice starting at j * BatchSize, as `tickers[i:i+BATCH_SIZE]` with i = j * BATCH_SIZE. */
  lemma {:induction false} BatchAt(xs: seq<string>, j: nat)
    requires j < |Batches(xs)|
    ensures j * BatchSize < |xs|
    ensures Batches(xs)[j] == xs[j * BatchSize..Min(j * BatchSize + BatchSize, |xs|)]
    decreases |xs|
  {
    if j > 0 {
      assert |xs| > BatchSize;
      var rest := xs[BatchSize..];
      assert Batches(xs)[j] == Batches(rest)[j - 1];
      BatchAt(rest, j - 1);
      var lo := (j - 1) * BatchSize;
      var hi := Min(lo + BatchSize, |rest|);
      assert BatchSize + lo == j * BatchSize;
      assert BatchSize + hi == Min(j * BatchSize + BatchSize, |xs|);
      SliceOfSlice(xs, BatchSize, lo, hi);
    } else if |xs| <= BatchSize {
      assert xs[0..|xs|] == xs;
    }
  }

  lemma SliceOfSlice<T>(xs: seq<T>, d: nat, lo: nat, hi: nat)
    requires d <= |xs| && lo <= hi <= |xs| - d
    ensures xs[d..][lo..hi] == xs[d + lo..d + hi]
  {
  }

  /** There are ceil(n / BatchSize) batches, so a run of n > 0 tickers pauses ceil(n / BatchSize) - 1 times. */
  lemma {:induction false} BatchCount(xs: seq<string>)
    ensures |Batches(xs)| == (|xs| + BatchSize - 1) / BatchSize
    ensures |Batches(xs)| == 0 <==> xs == []
    decreases |xs|
  {
    if |xs| > BatchSize {
      BatchCount(xs[BatchSize..]);
    }
  }
}
