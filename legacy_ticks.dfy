/** Tick generation of the older figure (`nice_num` and `make_ticks` in
    MatPlotOpenCV/include/figure.h): the same two rounding tables without
    the guard against a non-positive range, and every multiple of the step
    from floor(lo/step) to ceil(hi/step), with no clip to the window. */
module LegacyTicks {
  import opened Numerics
  import opened Ticks

  /** The older `nice_num`: the current tables, defined for a positive
      range only (the logarithm of a non-positive range is not finite). */
  function LegacyNiceNum(range: real, round: bool): (r: real)
    requires range > 0.0
    ensures r > 0.0
  {
    NiceTable(range, Pow10(Decade(range)), round)
  }

  /** On a positive range the older and the current `nice_num` agree. */
  lemma LegacyNiceNumAgrees(range: real, round: bool)
    requires range > 0.0
    ensures LegacyNiceNum(range, round) == NiceNum(range, round)
  {
    assert Guarded(range) == range;
  }

  /** The older step for `target` ticks over a non-empty window. */
  function LegacyTickStep(lo: real, hi: real, target: int): (step: real)
    requires lo < hi && target >= 2
    ensures step > 0.0
  {
    LegacyNiceNum(LegacyNiceNum(hi - lo, false) / (target - 1) as real, true)
  }

  lemma LegacyTickStepAgrees(lo: real, hi: real, target: int)
    requires lo < hi && target >= 2
    ensures LegacyTickStep(lo, hi, target) == TickStep(lo, hi, target)
  {
    var range := LegacyNiceNum(hi - lo, false);
    LegacyNiceNumAgrees(hi - lo, false);
    LegacyNiceNumAgrees(range / (target - 1) as real, true);
  }

  /** The first `n` candidates from the `a`-th multiple, each labelled. */
  function Run(step: real, a: int, n: nat): (t: TickInfo)
    ensures |t.locs| == |t.labels| == n
  {
    if n == 0 then TickInfo([], [])
    else
      var t := Run(step, a, n - 1);
      var v := Candidate(a + n - 1, step);
      TickInfo(t.locs + [v], t.labels + [Fixed(v, Decimals(step))])
  }

  /** The ticks for a given step: every candidate, unclipped. */
  function LegacyTicksWithStep(lo: real, hi: real, step: real): TickInfo
    requires step > 0.0
  {
    var a := (lo / step).Floor;
    Run(step, a, CandidateCount(a, Ceil(hi / step)))
  }

  /** The older `make_ticks(lo, hi, target)`; for `hi <= lo` the loop
      start is not a number (the step is 0 or not a number) and the loop
      does not run. */
  function LegacyTicksFor(lo: real, hi: real, target: int): TickInfo
    requires target >= 2
  {
    if hi <= lo then TickInfo([], [])
    else LegacyTicksWithStep(lo, hi, LegacyTickStep(lo, hi, target))
  }

  lemma {:induction false} RunShape(step: real, a: int, n: nat)
    requires step > 0.0
    ensures forall i :: 0 <= i < n ==> Run(step, a, n).locs[i] == Candidate(a + i, step)
    ensures forall i :: 0 <= i < n ==> Run(step, a, n).labels[i] == Fixed(Candidate(a + i, step), Decimals(step))
  {
    if n > 0 {
      RunShape(step, a, n - 1);
    }
  }

  /** The older ticks over a non-empty window bracket it: the first tick is
      at or below `lo`, the last at or above `hi`, consecutive ticks are one
      step apart, and each label carries its tick with the step's precision. */
  lemma LegacyTicksBracket(lo: real, hi: real, step: real)
    requires step > 0.0 && lo < hi
    ensures var t := LegacyTicksWithStep(lo, hi, step);
      && |t.locs| > 0 && |t.labels| == |t.locs|
      && t.locs[0] <= lo && hi <= t.locs[|t.locs| - 1]
      && (forall i :: 0 < i < |t.locs| ==> t.locs[i] == t.locs[i - 1] + step)
      && (forall i :: 0 <= i < |t.locs| ==> t.labels[i] == Fixed(t.locs[i], Decimals(step)))
  {
    var a := (lo / step).Floor;
    var b := Ceil(hi / step);
    DivLeMono(lo, hi, step);
    assert a <= b;
    var n := CandidateCount(a, b);
    RunShape(step, a, n);
    assert lo / step * step == lo && hi / step * step == hi;
    MulLeMono(a as real, lo / step, step);
    MulLeMono(hi / step, b as real, step);
    assert a + (n - 1) == b;
    forall i | 0 < i < n
      ensures Run(step, a, n).locs[i] == Run(step, a, n).locs[i - 1] + step
    {
      CandidateNext(a + i - 1, step);
      assert a + (i - 1) + 1 == a + i;
    }
  }

  /* ---------------------------------------------------------------- */
  /* The current ticks are the older ones clipped                      */
  /* ---------------------------------------------------------------- */

  /** The values of `s` inside [lo - 1e-12, hi + 1e-12], in order. */
  function Clip(lo: real, hi: real, s: seq<real>): (r: seq<real>)
    ensures |r| <= |s|
  {
    if |s| == 0 then []
    else
      var r := Clip(lo, hi, s[..|s| - 1]);
      if InWindow(lo, hi, s[|s| - 1]) then r + [s[|s| - 1]] else r
  }

  lemma {:induction false} KeptIsClippedRun(lo: real, hi: real, step: real, a: int, n: nat)
    ensures Kept(lo, hi, step, a, n).locs == Clip(lo, hi, Run(step, a, n).locs)
  {
    if n > 0 {
      KeptIsClippedRun(lo, hi, step, a, n - 1);
      assert Run(step, a, n).locs[..n - 1] == Run(step, a, n - 1).locs;
    }
  }

  /** For the same window and step, the current tick locations are exactly
      the older ones clipped to [lo - 1e-12, hi + 1e-12]. */
  lemma CurrentTicksAreClippedLegacy(lo: real, hi: real, step: real)
    requires step > 0.0
    ensures TicksWithStep(lo, hi, step).locs == Clip(lo, hi, LegacyTicksWithStep(lo, hi, step).locs)
  {
    var a := (lo / step).Floor;
    KeptIsClippedRun(lo, hi, step, a, CandidateCount(a, Ceil(hi / step)));
  }

  /** The same for the full generators on a non-empty window. */
  lemma CurrentMakeTicksIsClippedLegacy(lo: real, hi: real, target: int)
    requires lo < hi && target >= 2
    ensures TicksFor(lo, hi, target).locs == Clip(lo, hi, LegacyTicksFor(lo, hi, target).locs)
  {
    LegacyTickStepAgrees(lo, hi, target);
    CurrentTicksAreClippedLegacy(lo, hi, TickStep(lo, hi, target));
  }

  /* ---------------------------------------------------------------- */
  /* The loop                                                          */
  /* ---------------------------------------------------------------- */

  /** The older `make_ticks`: the two nice numbers, then the walk. */
  method LegacyMakeTicks(lo: real, hi: real, target: int) returns (out: TickInfo)
    requires target >= 2
    ensures out == LegacyTicksFor(lo, hi, target)
  {
    if hi <= lo {
      // The loop start is not a number: the loop guard fails at once.
      return TickInfo([], []);
    }
    var range := LegacyNiceNum(hi - lo, false);
    var step := LegacyNiceNum(range / (target - 1) as real, true);
    out := LegacyWalk(lo, hi, step);
  }

  /** The loop of the older `make_ticks`: every `v` from floor(lo/step)*step
      in steps of `step` up to ceil(hi/step)*step + step/2, with its label. */
  method LegacyWalk(lo: real, hi: real, step: real) returns (out: TickInfo)
    requires step > 0.0
    ensures out == LegacyTicksWithStep(lo, hi, step)
  {
    var graphLo := (lo / step).Floor as real * step;
    var graphHi := Ceil(hi / step) as real * step;
    ghost var a := (lo / step).Floor;
    ghost var b := Ceil(hi / step);
    ghost var k: nat := 0;
    out := TickInfo([], []);
    var v := graphLo;
    assert graphHi == Candidate(b, step);
    GuardIff(a, b, step);
    while v <= graphHi + 0.5 * step
      invariant v == Candidate(a + k, step)
      invariant k <= CandidateCount(a, b)
      invariant v <= Candidate(b, step) + 0.5 * step <==> a + k <= b
      invariant out == Run(step, a, k)
      decreases b - a - k
    {
      out := TickInfo(out.locs + [v], out.labels + [Fixed(v, if step < 1.0 then 1 else 0)]);
      WalkStep(a + k, b, step);
      v := v + step;
      k := k + 1;
    }
  }
}
