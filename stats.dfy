/**
 * The running aggregates over the speed history: the `reduce` sum and mean
 * of app/page.tsx:264 and the `Math.max` fold of app/page.tsx:251.
 */
module Stats {
  import opened Arith

  /** Left-to-right sum, as `reduce((a, b) => a + b, 0)`. */
  function Sum(s: seq<real>): real
  {
    if s == [] then 0.0 else Sum(s[..|s| - 1]) + s[|s| - 1]
  }

  /** Arithmetic mean of a non-empty history. */
  function Mean(s: seq<real>): real
    requires s != []
  {
    Sum(s) / |s| as real
  }

  /** `Math.max(prev, x)` folded over the history from a starting value of 0. */
  function Peak(s: seq<real>): real
  {
    if s == [] then 0.0 else Max(Peak(s[..|s| - 1]), s[|s| - 1])
  }

  /** The peak is at least 0 and at least every entry, and it is 0 or one of the entries. */
  lemma {:induction false} PeakIsMaximum(s: seq<real>)
    ensures Peak(s) >= 0.0
    ensures forall i :: 0 <= i < |s| ==> s[i] <= Peak(s)
    ensures Peak(s) == 0.0 || Peak(s) in s
  {
    if s != [] {
      var init := s[..|s| - 1];
      PeakIsMaximum(init);
      assert s == init + [s[|s| - 1]];
      forall i | 0 <= i < |s| ensures s[i] <= Peak(s) {
        if i < |s| - 1 { assert s[i] == init[i]; }
      }
    }
  }

  /** Every entry between `lo` and `hi` bounds the sum between `|s| * lo` and `|s| * hi`. */
  lemma {:induction false} SumBetween(s: seq<real>, lo: real, hi: real)
    requires forall i :: 0 <= i < |s| ==> lo <= s[i] <= hi
    ensures |s| as real * lo <= Sum(s) <= |s| as real * hi
  {
    if s != [] {
      var init := s[..|s| - 1];
      forall i | 0 <= i < |init| ensures lo <= init[i] <= hi {
        assert init[i] == s[i];
      }
      SumBetween(init, lo, hi);
      var n := |init| as real;
      assert Sum(s) == Sum(init) + s[|s| - 1];
      assert |s| as real * lo == n * lo + lo && |s| as real * hi == n * hi + hi;
    }
  }

  /** The mean lies between any lower and upper bound of the entries. */
  lemma MeanBetween(s: seq<real>, lo: real, hi: real)
    requires s != []
    requires forall i :: 0 <= i < |s| ==> lo <= s[i] <= hi
    ensures lo <= Mean(s) <= hi
  {
    SumBetween(s, lo, hi);
    var n := |s| as real;
    assert n * lo <= Sum(s) <= n * hi;
    assert lo == (n * lo) / n && hi == (n * hi) / n;
  }

  /** So the average speed never exceeds the maximum speed. */
  lemma MeanAtMostPeak(s: seq<real>)
    requires s != []
    ensures Mean(s) <= Peak(s)
  {
    PeakIsMaximum(s);
    MinBound(s);
    MeanBetween(s, MinOf(s), Peak(s));
  }

  /** The smallest entry of a non-empty history. */
  function MinOf(s: seq<real>): real
    requires s != []
  {
    if |s| == 1 then s[0]
    else var m := MinOf(s[..|s| - 1]); if s[|s| - 1] < m then s[|s| - 1] else m
  }

  lemma {:induction false} MinBound(s: seq<real>)
    requires s != []
    ensures forall i :: 0 <= i < |s| ==> MinOf(s) <= s[i]
  {
    if |s| > 1 {
      var init := s[..|s| - 1];
      MinBound(init);
      forall i | 0 <= i < |s| ensures MinOf(s) <= s[i] {
        if i < |s| - 1 { assert s[i] == init[i]; }
      }
    }
  }

  /** Appending one entry adds it to the sum: the mean can be kept as a running sum. */
  lemma SumAppend(s: seq<real>, x: real)
    ensures Sum(s + [x]) == Sum(s) + x
  {
    assert (s + [x])[..|s|] == s;
  }

  /** The running maximum after one more entry is the larger of the old maximum and that entry. */
  lemma PeakAppend(s: seq<real>, x: real)
    ensures Peak(s + [x]) == Max(Peak(s), x)
  {
    assert (s + [x])[..|s|] == s;
  }
}
