/** Tick generation of the current figure (`nice_num` and `make_ticks` in
    src/figure.cpp): a "nice" range and step from two rounding tables over a
    decade mantissa, candidate ticks at every multiple of the step between the
    snapped ends, and a clip to the axis window widened by 1e-12. */
module Ticks {
  import opened Numerics

  /** The clip tolerance, 1e-12. */
  const Tolerance: real := 0.000000000001

  /** The two rounding tables: `round` picks the nearest of 1, 2, 5, 10 (with
      thresholds 1.5, 3, 7); otherwise the smallest of them not below `f`. */
  function NiceFactor(f: real, round: bool): (nf: real)
    ensures nf == 1.0 || nf == 2.0 || nf == 5.0 || nf == 10.0
    ensures !round && 1.0 <= f < 10.0 ==> f <= nf && (f > 1.0 ==> nf < 2.5 * f)
    ensures round && 1.0 <= f < 10.0 ==> 2.0 * f < 3.0 * nf && 3.0 * nf <= 5.0 * f
    ensures f == 1.0 || f == 2.0 || f == 5.0 ==> nf == f
  {
    if round then
      if f < 1.5 then 1.0 else if f < 3.0 then 2.0 else if f < 7.0 then 5.0 else 10.0
    else
      if f <= 1.0 then 1.0 else if f <= 2.0 then 2.0 else if f <= 5.0 then 5.0 else 10.0
  }

  /** The input `nice_num` works on: a non-positive range is treated as 1. */
  function Guarded(range: real): (x: real)
    ensures x > 0.0
    ensures range > 0.0 ==> x == range
  {
    if range <= 0.0 then 1.0 else range
  }

  /** The table step of `nice_num` for a positive `x` in the decade of `p`:
      each mantissa comparison `x / p < c` is written as the equivalent
      `x < c * p` (`NiceTableIsFactorOfMantissa` proves the two forms equal). */
  function NiceTable(x: real, p: real, round: bool): (r: real)
    requires p > 0.0
    ensures r == p || r == 2.0 * p || r == 5.0 * p || r == 10.0 * p
  {
    if round then
      if x < 1.5 * p then p else if x < 3.0 * p then 2.0 * p else if x < 7.0 * p then 5.0 * p else 10.0 * p
    else
      if x <= p then p else if x <= 2.0 * p then 2.0 * p else if x <= 5.0 * p then 5.0 * p else 10.0 * p
  }

  /** Comparing the mantissa `f` of `x = f * p` with a threshold is
      comparing `x` with the threshold times `p`. */
  lemma ThresholdIff(f: real, p: real, x: real, c: real)
    requires p > 0.0 && f * p == x
    ensures f < c <==> x < c * p
    ensures f <= c <==> x <= c * p
  {
    if f < c { MulLtMono(f, c, p); }
    if f > c { MulLtMono(c, f, p); }
  }

  /** The table on `x` and `p` is the source's table on the mantissa `x / p`. */
  lemma NiceTableIsFactorOfMantissa(x: real, p: real, round: bool)
    requires p > 0.0
    ensures NiceTable(x, p, round) == NiceFactor(x / p, round) * p
  {
    var f := x / p;
    assert f * p == x;
    if round {
      ThresholdIff(f, p, x, 1.5);
      ThresholdIff(f, p, x, 3.0);
      ThresholdIff(f, p, x, 7.0);
    } else {
      ThresholdIff(f, p, x, 1.0);
      ThresholdIff(f, p, x, 2.0);
      ThresholdIff(f, p, x, 5.0);
    }
  }

  /** `nice_num(range, round)`: the table entry for the mantissa of the
      guarded range, times its decade `10^floor(log10 x)`. */
  function NiceNum(range: real, round: bool): (r: real)
    ensures r > 0.0
  {
    var x := Guarded(range);
    NiceTable(x, Pow10(Decade(x)), round)
  }

  /** `NiceNum` is the source's table applied to the mantissa. */
  lemma NiceNumIsTableOfMantissa(range: real, round: bool, x: real, p: real)
    requires x == Guarded(range) && p == Pow10(Decade(x))
    ensures NiceNum(range, round) == NiceFactor(x / p, round) * p
  {
    NiceTableIsFactorOfMantissa(x, p, round);
  }

  /** A non-positive range is treated as 1, so the answer is 1 from both tables. */
  lemma NiceNumOfNonPositive(range: real, round: bool)
    requires range <= 0.0
    ensures NiceNum(range, round) == 1.0
  {
    assert Pow10(0) == 1.0 && Pow10(1) == 10.0;
    DecadeUnique(1.0, 0);
  }

  /** The non-round table never returns less than its positive input, and
      less than 2.5 times it. */
  lemma NiceNumCovers(range: real)
    requires range > 0.0
    ensures range <= NiceNum(range, false) < 2.5 * range
  {
    Pow10Step(Decade(range));
  }

  /** The round table stays above 2/3 and at most 5/3 of its positive input. */
  lemma NiceNumRoundsNear(range: real)
    requires range > 0.0
    ensures 2.0 * range < 3.0 * NiceNum(range, true) <= 5.0 * range
  {
    Pow10Step(Decade(range));
  }

  /** A nice number is a fixed point of both tables. */
  lemma NiceNumIsFixedPoint(range: real, round: bool, again: bool)
    ensures NiceNum(NiceNum(range, round), again) == NiceNum(range, round)
  {
    var e := Decade(Guarded(range));
    var p := Pow10(e);
    var r := NiceNum(range, round);
    Pow10Step(e);
    if r == 10.0 * p {
      Pow10Step(e + 1);
      DecadeUnique(r, e + 1);
    } else {
      DecadeUnique(r, e);
    }
  }

  /** Tick labels: the value printed in fixed notation with a number of decimals. */
  datatype Label = Fixed(value: real, decimals: nat)

  /** One decimal when the step is below 1, none otherwise. */
  function Decimals(step: real): (d: nat)
    ensures d == 1 <==> step < 1.0
    ensures d <= 1
  {
    if step < 1.0 then 1 else 0
  }

  datatype TickInfo = TickInfo(locs: seq<real>, labels: seq<Label>)

  /** The tick step for `target` ticks over [lo, hi]: the round nice number
      of the non-round nice range divided into `target - 1` intervals. */
  function TickStep(lo: real, hi: real, target: int): (step: real)
    requires target != 1
    ensures step > 0.0
  {
    NiceNum(NiceNum(hi - lo, false) / (target - 1) as real, true)
  }

  /** Whether a candidate survives the clip to [lo - 1e-12, hi + 1e-12]. */
  predicate InWindow(lo: real, hi: real, v: real) {
    !(v < lo - Tolerance || v > hi + Tolerance)
  }

  /** The `m`-th multiple of the step. */
  function Candidate(m: int, step: real): real {
    m as real * step
  }

  /** A real that is an integer multiple of `step`. */
  predicate IsMultiple(v: real, step: real)
    requires step > 0.0
  {
    (v / step).Floor as real * step == v
  }

  lemma CandidateIsMultiple(m: int, step: real)
    requires step > 0.0
    ensures IsMultiple(Candidate(m, step), step)
  {
    assert Candidate(m, step) / step == m as real;
  }

  lemma CandidateIncreasing(m: int, n: int, step: real)
    requires step > 0.0 && m < n
    ensures Candidate(m, step) < Candidate(n, step)
  {
    MulLtMono(m as real, n as real, step);
  }

  lemma CandidateNext(m: int, step: real)
    ensures Candidate(m + 1, step) == Candidate(m, step) + step
  {
    assert (m + 1) as real * step == m as real * step + 1.0 * step;
  }

  /** The loop guard `v <= graph_hi + step/2` on the candidate `m` holds
      exactly while `m` does not pass `b`. */
  lemma GuardIff(m: int, b: int, step: real)
    requires step > 0.0
    ensures Candidate(m, step) <= Candidate(b, step) + 0.5 * step <==> m <= b
  {
    if m <= b {
      MulLeMono(m as real, b as real, step);
    } else {
      MulLeMono((b + 1) as real, m as real, step);
      CandidateNext(b, step);
      assert Candidate(b + 1, step) <= Candidate(m, step);
    }
  }

  /** One step of the walk: the next candidate is one step on, and the
      guard holds on it exactly while it does not pass `b`. */
  lemma WalkStep(m: int, b: int, step: real)
    requires step > 0.0
    ensures Candidate(m, step) + step == Candidate(m + 1, step)
    ensures Candidate(m + 1, step) <= Candidate(b, step) + 0.5 * step <==> m + 1 <= b
  {
    CandidateNext(m, step);
    GuardIff(m + 1, b, step);
  }

  /** The ticks among the first `n` candidates, starting at the `a`-th multiple. */
  function Kept(lo: real, hi: real, step: real, a: int, n: nat): TickInfo
  {
    if n == 0 then TickInfo([], [])
    else
      var t := Kept(lo, hi, step, a, n - 1);
      var v := Candidate(a + n - 1, step);
      if InWindow(lo, hi, v) then TickInfo(t.locs + [v], t.labels + [Fixed(v, Decimals(step))])
      else t
  }

  /** Number of candidates: the multiples from `a` up to `b`. */
  function CandidateCount(a: int, b: int): nat {
    if b >= a then b - a + 1 else 0
  }

  /** The ticks for a given step: the candidates from floor(lo/step) to
      ceil(hi/step), clipped to the window. */
  function TicksWithStep(lo: real, hi: real, step: real): TickInfo
    requires step > 0.0
  {
    var a := (lo / step).Floor;
    Kept(lo, hi, step, a, CandidateCount(a, Ceil(hi / step)))
  }

  /** `make_ticks(lo, hi, target)`. */
  function TicksFor(lo: real, hi: real, target: int): TickInfo
    requires target != 1
  {
    TicksWithStep(lo, hi, TickStep(lo, hi, target))
  }

  /** One label per location, carrying the location and the step's precision. */
  lemma {:induction false} KeptLabels(lo: real, hi: real, step: real, a: int, n: nat)
    ensures |Kept(lo, hi, step, a, n).labels| == |Kept(lo, hi, step, a, n).locs|
    ensures forall i :: 0 <= i < |Kept(lo, hi, step, a, n).locs| ==>
      Kept(lo, hi, step, a, n).labels[i] == Fixed(Kept(lo, hi, step, a, n).locs[i], Decimals(step))
  {
    if n > 0 {
      KeptLabels(lo, hi, step, a, n - 1);
    }
  }

  /** Every location is in the window and a multiple of the step. */
  lemma {:induction false} KeptInWindow(lo: real, hi: real, step: real, a: int, n: nat)
    requires step > 0.0
    ensures forall i :: 0 <= i < |Kept(lo, hi, step, a, n).locs| ==>
      InWindow(lo, hi, Kept(lo, hi, step, a, n).locs[i]) && IsMultiple(Kept(lo, hi, step, a, n).locs[i], step)
  {
    if n > 0 {
      KeptInWindow(lo, hi, step, a, n - 1);
      CandidateIsMultiple(a + n - 1, step);
    }
  }

  /** The locations ascend strictly and stay below the next candidate. */
  lemma {:induction false} KeptAscending(lo: real, hi: real, step: real, a: int, n: nat)
    requires step > 0.0
    ensures forall i :: 0 <= i < |Kept(lo, hi, step, a, n).locs| ==>
      Kept(lo, hi, step, a, n).locs[i] < Candidate(a + n, step)
    ensures forall i, j :: 0 <= i < j < |Kept(lo, hi, step, a, n).locs| ==>
      Kept(lo, hi, step, a, n).locs[i] < Kept(lo, hi, step, a, n).locs[j]
  {
    if n > 0 {
      KeptAscending(lo, hi, step, a, n - 1);
      assert Candidate(a + (n - 1), step) == Candidate(a + n - 1, step);
      CandidateIncreasing(a + n - 1, a + n, step);
    }
  }

  /** Every candidate among the first `n` that lies in the window is kept. */
  lemma {:induction false} KeptComplete(lo: real, hi: real, step: real, a: int, n: nat)
    ensures forall m :: a <= m < a + n && InWindow(lo, hi, Candidate(m, step)) ==>
      Candidate(m, step) in Kept(lo, hi, step, a, n).locs
  {
    if n > 0 {
      KeptComplete(lo, hi, step, a, n - 1);
    }
  }

  /** The ticks are ascending multiples of the step inside
      [lo - 1e-12, hi + 1e-12], with exactly one label per location whose
      precision is one decimal iff the step is below 1. */
  lemma TicksShape(lo: real, hi: real, step: real)
    requires step > 0.0
    ensures var t := TicksWithStep(lo, hi, step);
      && |t.labels| == |t.locs|
      && (forall i :: 0 <= i < |t.locs| ==> t.labels[i].value == t.locs[i])
      && (forall i :: 0 <= i < |t.locs| ==> (t.labels[i].decimals == 1 <==> step < 1.0))
      && (forall i :: 0 <= i < |t.locs| ==> lo - Tolerance <= t.locs[i] <= hi + Tolerance)
      && (forall i :: 0 <= i < |t.locs| ==> IsMultiple(t.locs[i], step))
      && (forall i, j :: 0 <= i < j < |t.locs| ==> t.locs[i] < t.locs[j])
  {
    var a := (lo / step).Floor;
    var n := CandidateCount(a, Ceil(hi / step));
    KeptLabels(lo, hi, step, a, n);
    KeptInWindow(lo, hi, step, a, n);
    KeptAscending(lo, hi, step, a, n);
  }

  /** Every multiple of the step inside [lo, hi] is a tick. */
  lemma TicksComplete(lo: real, hi: real, step: real, m: int)
    requires step > 0.0
    requires lo <= Candidate(m, step) <= hi
    ensures Candidate(m, step) in TicksWithStep(lo, hi, step).locs
  {
    var v := Candidate(m, step);
    var a := (lo / step).Floor;
    var b := Ceil(hi / step);
    assert v / step == m as real;
    DivLeMono(lo, v, step);
    DivLeMono(v, hi, step);
    assert a <= m <= b;
    KeptComplete(lo, hi, step, a, CandidateCount(a, b));
  }

  /** `make_ticks`: the non-round nice range, the round nice step for
      `target - 1` intervals, then the walk over the candidates. */
  method MakeTicks(lo: real, hi: real, target: int) returns (out: TickInfo)
    requires target != 1
    ensures out == TicksFor(lo, hi, target)
  {
    var range := NiceNum(hi - lo, false);
    var step := NiceNum(range / (target - 1) as real, true);
    out := WalkCandidates(lo, hi, step);
  }

  /** The loop of `make_ticks`: walk `v` from floor(lo/step)*step in steps of
      `step` while it does not pass ceil(hi/step)*step + step/2, keeping the
      values inside the window together with their labels. */
  method WalkCandidates(lo: real, hi: real, step: real) returns (out: TickInfo)
    requires step > 0.0
    ensures out == TicksWithStep(lo, hi, step)
  {
    var graphLo := (lo / step).Floor as real * step;
    var graphHi := Ceil(hi / step) as real * step;
    ghost var a := (lo / step).Floor;
    ghost var b := Ceil(hi / step);
    ghost var k: nat := 0;
    out := TickInfo([], []);
    var v := graphLo;
    assert graphHi == Candidate(b, step);
    GuardIff(a, b, step);
    while v <= graphHi + 0.5 * step
      invariant v == Candidate(a + k, step)
      invariant k <= CandidateCount(a, b)
      invariant v <= Candidate(b, step) + 0.5 * step <==> a + k <= b
      invariant out == Kept(lo, hi, step, a, k)
      decreases b - a - k
    {
      if !(v < lo - Tolerance || v > hi + Tolerance) {
        out := TickInfo(out.locs + [v], out.labels + [Fixed(v, if step < 1.0 then 1 else 0)]);
      }
      WalkStep(a + k, b, step);
      v := v + step;
      k := k + 1;
    }
  }
}
