/** The per-player statistics that the comparison and individual views
    compute with `reduce`, `Math.max` and `filter`, over exact reals (the
    source's floating point and its rounding for display are not modelled). */
module PitchStats {
  import opened Seqs
  import opened Records

  function Sum(xs: seq<real>): real {
    if xs == [] then 0.0 else Sum(xs[..|xs| - 1]) + xs[|xs| - 1]
  }

  /** `xs.reduce((sum, x) => sum + x, 0) / xs.length`. */
  function Mean(xs: seq<real>): real
    requires |xs| > 0
  {
    Sum(xs) / (|xs| as real)
  }

  /** `Math.max(...xs)` on a non-empty list: one of its elements, and no smaller than any. */
  function Max(xs: seq<real>): (m: real)
    requires |xs| > 0
    ensures m in xs
    ensures forall i :: 0 <= i < |xs| ==> xs[i] <= m
  {
    if |xs| == 1 then xs[0]
    else
      var m := Max(xs[1..]);
      assert forall i :: 1 <= i < |xs| ==> xs[i] == xs[1..][i - 1];
      if xs[0] >= m then xs[0] else m
  }

  /** A sum is at most the count times any upper bound of its terms. */
  lemma {:induction false} SumAtMost(xs: seq<real>, bound: real)
    requires forall i :: 0 <= i < |xs| ==> xs[i] <= bound
    ensures Sum(xs) <= (|xs| as real) * bound
  {
    if xs != [] {
      SumAtMost(xs[..|xs| - 1], bound);
    }
  }

  /** A sum is at least the count times any lower bound of its terms. */
  lemma {:induction false} SumAtLeast(xs: seq<real>, bound: real)
    requires forall i :: 0 <= i < |xs| ==> bound <= xs[i]
    ensures (|xs| as real) * bound <= Sum(xs)
  {
    if xs != [] {
      SumAtLeast(xs[..|xs| - 1], bound);
    }
  }

  lemma DivideBounds(s: real, n: real, lo: real, hi: real)
    requires n > 0.0 && n * lo <= s <= n * hi
    ensures lo <= s / n <= hi
  {
    assert s / n * n == s;
  }

  lemma DivideAtMost(s: real, n: real, hi: real)
    requires n > 0.0 && s <= n * hi
    ensures s / n <= hi
  {
    assert s / n * n == s;
  }

  /** The mean lies between any bounds of the terms; in particular it is at most the maximum. */
  lemma MeanWithin(xs: seq<real>, lo: real, hi: real)
    requires |xs| > 0
    requires forall i :: 0 <= i < |xs| ==> lo <= xs[i] <= hi
    ensures lo <= Mean(xs) <= hi
  {
    SumAtMost(xs, hi);
    SumAtLeast(xs, lo);
    DivideBounds(Sum(xs), |xs| as real, lo, hi);
  }

  /** The mean is at most the maximum (the table's "max speed" is never below its "average speed"). */
  lemma MeanAtMostMax(xs: seq<real>)
    requires |xs| > 0
    ensures Mean(xs) <= Max(xs)
  {
    var m, total, n := Max(xs), Sum(xs), |xs| as real;
    SumAtMost(xs, m);
    DivideAtMost(total, n, m);
    assert Mean(xs) == total / n;
  }

  // ---------------------------------------------------------------------
  // Columns of a player's records

  function Speeds(stats: seq<PitchRecord>): (r: seq<real>)
    ensures |r| == |stats| && forall i :: 0 <= i < |stats| ==> r[i] == stats[i].speed
  {
    seq(|stats|, i requires 0 <= i < |stats| => stats[i].speed)
  }

  function Spins(stats: seq<PitchRecord>): (r: seq<real>)
    ensures |r| == |stats| && forall i :: 0 <= i < |stats| ==> r[i] == stats[i].spin as real
  {
    seq(|stats|, i requires 0 <= i < |stats| => stats[i].spin as real)
  }

  function TrueSpins(stats: seq<PitchRecord>): (r: seq<real>)
    ensures |r| == |stats| && forall i :: 0 <= i < |stats| ==> r[i] == stats[i].trueSpin as real
  {
    seq(|stats|, i requires 0 <= i < |stats| => stats[i].trueSpin as real)
  }

  function SpinEffs(stats: seq<PitchRecord>): (r: seq<real>)
    ensures |r| == |stats| && forall i :: 0 <= i < |stats| ==> r[i] == stats[i].spinEff
  {
    seq(|stats|, i requires 0 <= i < |stats| => stats[i].spinEff)
  }

  // ---------------------------------------------------------------------
  // Strike rate

  /** `stats.filter(s => s.strike === 1).length`. */
  function StrikeCount(stats: seq<PitchRecord>): (n: nat)
    ensures n <= |stats|
  {
    |Filter(stats, (s: PitchRecord) => s.strike == 1)|
  }

  /** `(strikes / stats.length) * 100`. */
  function StrikeRate(stats: seq<PitchRecord>): real
    requires |stats| > 0
  {
    (StrikeCount(stats) as real) / (|stats| as real) * 100.0
  }

  /** The strike rate is a percentage: 0 with no strikes, 100 with only strikes. */
  lemma StrikeRateIsPercentage(stats: seq<PitchRecord>)
    requires |stats| > 0
    ensures 0.0 <= StrikeRate(stats) <= 100.0
    ensures StrikeCount(stats) == 0 ==> StrikeRate(stats) == 0.0
    ensures StrikeCount(stats) == |stats| ==> StrikeRate(stats) == 100.0
  {
    var c, n := StrikeCount(stats) as real, |stats| as real;
    DivideBounds(c, n, 0.0, 1.0);
  }

  /** Every strike counts: a list of strikes only has the full rate. */
  lemma AllStrikes(stats: seq<PitchRecord>)
    requires |stats| > 0
    requires forall i :: 0 <= i < |stats| ==> stats[i].strike == 1
    ensures StrikeRate(stats) == 100.0
  {
    FilterAll(stats, (s: PitchRecord) => s.strike == 1);
    StrikeRateIsPercentage(stats);
  }
}
