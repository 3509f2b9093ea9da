/**
 * Simple moving averages, as `series.rolling(window=w).mean()` computes them
 * (stock_screener.py, get_sma). A series here holds no NaN: the entries whose
 * window is not yet full are the only undefined ones, and they are `None`.
 */
module MovingAverage {
  import opened Wrappers

  /** Sum of a sequence of reals, accumulated from the left. */
  function Sum(xs: seq<real>): real
  {
    if xs == [] then 0.0 else Sum(xs[..|xs| - 1]) + xs[|xs| - 1]
  }

  /** Unweighted mean of a non-empty window. */
  function Mean(xs: seq<real>): real
    requires |xs| > 0
  {
    Sum(xs) / (|xs| as real)
  }

  /**
   * Rolling mean with window `w`: entry i is the mean of the `w` values ending
   * at index i, and is undefined while fewer than `w` values are available.
   */
  function Sma(xs: seq<real>, w: nat): (r: seq<Option<real>>)
    requires w > 0
    ensures |r| == |xs|
    ensures forall i :: 0 <= i < |xs| ==> (r[i].Some? <==> w <= i + 1)
  {
    seq(|xs|, i requires 0 <= i < |xs| =>
      if i + 1 < w then None else Some(Mean(xs[i + 1 - w..i + 1])))
  }

  /** Taking the first element off the front of a sum. */
  lemma {:induction false} SumFront(xs: seq<real>)
    requires |xs| > 0
    ensures Sum(xs) == xs[0] + Sum(xs[1..])
    decreases |xs|
  {
    if |xs| > 1 {
      var init := xs[..|xs| - 1];
      SumFront(init);
      assert init[1..] == xs[1..][..|xs[1..]| - 1];
    } else {
      assert xs[..|xs| - 1] == [] && xs[1..] == [];
    }
  }

  /** A sum of values that all lie in [lo, hi] lies in [n * lo, n * hi]. */
  lemma {:induction false} SumBounds(xs: seq<real>, lo: real, hi: real)
    requires forall j :: 0 <= j < |xs| ==> lo <= xs[j] <= hi
    ensures (|xs| as real) * lo <= Sum(xs) <= (|xs| as real) * hi
    decreases |xs|
  {
    if xs != [] {
      SumBounds(xs[..|xs| - 1], lo, hi);
    }
  }

  /** A defined SMA lies between the smallest and the largest value of its window. */
  lemma SmaWithinWindowBounds(xs: seq<real>, w: nat, i: nat, lo: real, hi: real)
    requires w > 0 && w <= i + 1 && i < |xs|
    requires forall j :: i + 1 - w <= j <= i ==> lo <= xs[j] <= hi
    ensures Sma(xs, w)[i].Some?
    ensures lo <= Sma(xs, w)[i].value <= hi
  {
    var win := xs[i + 1 - w..i + 1];
    SumBounds(win, lo, hi);
    var n := w as real;
    assert Sma(xs, w)[i].value == Sum(win) / n;
    assert n * lo <= Sum(win) <= n * hi;
    DivBounds(Sum(win), n, lo, hi);
  }

  /** Dividing by a positive count keeps the bounds. */
  lemma DivBounds(s: real, n: real, lo: real, hi: real)
    requires n > 0.0 && n * lo <= s <= n * hi
    ensures lo <= s / n <= hi
  {
    assert s / n * n == s;
  }

  /** The SMA of a constant series is that constant wherever it is defined. */
  lemma SmaOfConstant(xs: seq<real>, w: nat, c: real, i: nat)
    requires w > 0 && w <= i + 1 && i < |xs|
    requires forall j :: 0 <= j < |xs| ==> xs[j] == c
    ensures Sma(xs, w)[i] == Some(c)
  {
    SmaWithinWindowBounds(xs, w, i, c, c);
  }

  /**
   * The rolling update: moving the window one day on adds the new value and
   * drops the oldest one, each weighted by 1/w.
   */
  lemma SmaSlide(xs: seq<real>, w: nat, i: nat)
    requires w > 0 && w <= i + 1 && i + 1 < |xs|
    ensures Sma(xs, w)[i].Some? && Sma(xs, w)[i + 1].Some?
    ensures Sma(xs, w)[i + 1].value
         == Sma(xs, w)[i].value + (xs[i + 1] - xs[i + 1 - w]) / (w as real)
  {
    var old_ := xs[i + 1 - w..i + 1];
    var new_ := xs[i + 2 - w..i + 2];
    SumFront(old_);
    assert old_[1..] == new_[..|new_| - 1];
    assert Sum(new_) == Sum(old_) - xs[i + 1 - w] + xs[i + 1];
    var n := w as real;
    assert Sma(xs, w)[i].value == Sum(old_) / n;
    assert Sma(xs, w)[i + 1].value == Sum(new_) / n;
    DivShift(Sum(old_), xs[i + 1 - w], xs[i + 1], n);
  }

  lemma DivShift(s: real, out: real, into: real, n: real)
    requires n > 0.0
    ensures (s - out + into) / n == s / n + (into - out) / n
  {
  }
}
