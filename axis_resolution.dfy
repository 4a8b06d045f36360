/** Axis resolution at render time, as pure functions on finite limits:
    the start limits (autoscaled data box, unit-square fallback or the
    current limits), symmetric padding, the zero-span fix, and equal-scale
    recentering, in the order each figure applies them. The methods at the
    end perform the zero-span fix in place on an axes object. */
module AxisResolution {
  import opened Numerics
  import opened AxesModel
  import opened LegacyAxesModel
  import opened BoundsModel

  /* ---------------------------------------------------------------- */
  /* ensure_nonzero_span / fix_ranges                                  */
  /* ---------------------------------------------------------------- */

  /** The widening of a collapsed span: a thousandth of |lo| when |lo|
      exceeds 1e-12, otherwise a thousandth. */
  function SpanEps(lo: real): (eps: real)
    ensures eps > 0.0
  {
    if Abs(lo) > 0.000000000001 then Abs(lo) * 0.001 else 0.001
  }

  /** The epsilon is not max(|lo| * 1e-3, 1e-3): for lo = 0.5 it is 5e-4. */
  lemma SpanEpsIsNotMax()
    ensures SpanEps(0.5) == 0.0005 < MaxReal(0.5 * 0.001, 0.001)
  {
  }

  /** An axis range. */
  datatype Span = Span(lo: real, hi: real)

  /** `ensure_nonzero_span(lo, hi)`: a collapsed span is widened
      symmetrically; any other span, inverted ones included, is kept. */
  function NonzeroSpan(lo: real, hi: real): (s: Span)
    ensures s.lo != s.hi
    ensures lo != hi ==> s == Span(lo, hi)
    ensures lo == hi ==> s.lo < lo < s.hi && s.lo + s.hi == lo + hi
  {
    if lo == hi then
      var eps := SpanEps(lo);
      Span(lo - eps, hi + eps)
    else Span(lo, hi)
  }

  /** `fix_ranges`: the zero-span fix on both axes. */
  function FixLimits(l: Limits): (r: Limits)
    ensures NonzeroSpans(r)
    ensures l.xmin != l.xmax ==> r.xmin == l.xmin && r.xmax == l.xmax
    ensures l.ymin != l.ymax ==> r.ymin == l.ymin && r.ymax == l.ymax
    ensures l.xmin <= l.xmax ==> r.xmin < r.xmax
    ensures l.ymin <= l.ymax ==> r.ymin < r.ymax
    ensures r.xmin <= l.xmin && l.xmax <= r.xmax && r.ymin <= l.ymin && l.ymax <= r.ymax
  {
    var x := NonzeroSpan(l.xmin, l.xmax);
    var y := NonzeroSpan(l.ymin, l.ymax);
    Limits(x.lo, x.hi, y.lo, y.hi)
  }

  /** Limits with non-zero spans are a fixed point of the fix, so applying
      it twice is applying it once; inverted limits stay inverted. */
  lemma FixLimitsIdempotent(l: Limits)
    ensures NonzeroSpans(l) ==> FixLimits(l) == l
    ensures FixLimits(FixLimits(l)) == FixLimits(l)
    ensures l.xmin > l.xmax ==> FixLimits(l).xmin > FixLimits(l).xmax
    ensures l.ymin > l.ymax ==> FixLimits(l).ymin > FixLimits(l).ymax
  {
  }

  /* ---------------------------------------------------------------- */
  /* Padding and equal scale                                           */
  /* ---------------------------------------------------------------- */

  /** Step 1b of `render`: for a positive fraction, each side moves out by
      that fraction of its span; otherwise nothing changes. */
  function Pad(l: Limits, frac: real): Limits {
    if frac > 0.0 then
      var dx := (l.xmax - l.xmin) * frac;
      var dy := (l.ymax - l.ymin) * frac;
      Limits(l.xmin - dx, l.xmax + dx, l.ymin - dy, l.ymax + dy)
    else l
  }

  /** Padding keeps each midpoint and scales each span by 1 + 2 * frac. */
  lemma PadScalesSpans(l: Limits, frac: real)
    requires frac > 0.0
    ensures Pad(l, frac).xmax - Pad(l, frac).xmin == (l.xmax - l.xmin) * (1.0 + 2.0 * frac)
    ensures Pad(l, frac).ymax - Pad(l, frac).ymin == (l.ymax - l.ymin) * (1.0 + 2.0 * frac)
    ensures Pad(l, frac).xmin + Pad(l, frac).xmax == l.xmin + l.xmax
    ensures Pad(l, frac).ymin + Pad(l, frac).ymax == l.ymin + l.ymax
  {
  }

  /** Padding ordered limits only widens them. */
  lemma PadWidens(l: Limits, frac: real)
    requires l.xmin <= l.xmax && l.ymin <= l.ymax
    ensures Pad(l, frac).xmin <= l.xmin && l.xmax <= Pad(l, frac).xmax
    ensures Pad(l, frac).ymin <= l.ymin && l.ymax <= Pad(l, frac).ymax
  {
    if frac > 0.0 {
      MulLeMono(0.0, l.xmax - l.xmin, frac);
      MulLeMono(0.0, l.ymax - l.ymin, frac);
    }
  }

  /** Padding compounds: padding padded limits of positive span widens them
      again, strictly. */
  lemma PadCompounds(l: Limits, frac: real)
    requires frac > 0.0 && l.xmin < l.xmax
    ensures var once := Pad(l, frac);
      var twice := Pad(once, frac);
      l.xmax - l.xmin < once.xmax - once.xmin < twice.xmax - twice.xmin
  {
    var once := Pad(l, frac);
    PadScalesSpans(l, frac);
    PadScalesSpans(once, frac);
    MulLtMono(0.0, l.xmax - l.xmin, frac);
    MulLtMono(0.0, once.xmax - once.xmin, frac);
  }

  /** Step 2 of `render`: both axes get the larger span about their own
      midpoints. */
  function EqualScale(l: Limits): Limits {
    var span := MaxReal(l.xmax - l.xmin, l.ymax - l.ymin);
    var xmid := 0.5 * (l.xmin + l.xmax);
    var ymid := 0.5 * (l.ymin + l.ymax);
    Limits(xmid - span / 2.0, xmid + span / 2.0, ymid - span / 2.0, ymid + span / 2.0)
  }

  /** Equal scale makes the spans equal to the larger one, keeps both
      midpoints, and changes nothing when the spans are already equal. */
  lemma EqualScaleProperties(l: Limits)
    ensures var r := EqualScale(l);
      && r.xmax - r.xmin == r.ymax - r.ymin == MaxReal(l.xmax - l.xmin, l.ymax - l.ymin)
      && r.xmin + r.xmax == l.xmin + l.xmax
      && r.ymin + r.ymax == l.ymin + l.ymax
    ensures l.xmax - l.xmin == l.ymax - l.ymin ==> EqualScale(l) == l
    ensures EqualScale(EqualScale(l)) == EqualScale(l)
  {
  }

  /** Equal scale applied when the flag is set. */
  function EqualStep(l: Limits, equal: bool): Limits {
    if equal then EqualScale(l) else l
  }

  /* ---------------------------------------------------------------- */
  /* The current figure                                                */
  /* ---------------------------------------------------------------- */

  /** The finite limits of a valid data box. */
  function BoxLimits(b: Box): (l: Limits)
    requires Consistent(b) && IsValid(b)
    ensures Fin(l.xmin) == b.xmin && Fin(l.xmax) == b.xmax
    ensures Fin(l.ymin) == b.ymin && Fin(l.ymax) == b.ymax
    ensures l.xmin <= l.xmax && l.ymin <= l.ymax
  {
    Limits(b.xmin.r, b.xmax.r, b.ymin.r, b.ymax.r)
  }

  /** Step 1 of `render`: with autoscale, the data box if it has seen a
      point, else the unit square; without it, the current limits. */
  function AutoscaleStart(autoscale: bool, b: Box, current: Limits): Limits
    requires Consistent(b)
  {
    if !autoscale then current
    else if IsValid(b) then BoxLimits(b)
    else UnitSquare
  }

  /** The limits `render` draws with: start, pad, fix, equal scale, fix. */
  function Resolve(p: Policy, b: Box, current: Limits): (r: Limits)
    requires Consistent(b)
    ensures NonzeroSpans(r)
  {
    var padded := FixLimits(Pad(AutoscaleStart(p.autoscale, b, current), p.padFrac));
    FixLimits(EqualStep(padded, p.equalScale))
  }

  /** With equal scale on, the resolved spans are equal, and each midpoint
      is that of the padded, fixed limits. */
  lemma ResolveEqualScale(p: Policy, b: Box, current: Limits)
    requires Consistent(b) && p.equalScale
    ensures var r := Resolve(p, b, current);
      var padded := FixLimits(Pad(AutoscaleStart(p.autoscale, b, current), p.padFrac));
      && r.xmax - r.xmin == r.ymax - r.ymin
      && r.xmin + r.xmax == padded.xmin + padded.xmax
      && r.ymin + r.ymax == padded.ymin + padded.ymax
  {
    var padded := FixLimits(Pad(AutoscaleStart(p.autoscale, b, current), p.padFrac));
    var e := EqualScale(padded);
    EqualScaleProperties(padded);
    assert e.xmax - e.xmin != 0.0;
    assert FixLimits(e) == e;
  }

  /** With autoscale on, no data and no padding or equal scale, the
      limits are the unit square. */
  lemma ResolveFallback(p: Policy, current: Limits)
    requires p.autoscale && !p.equalScale && p.padFrac <= 0.0
    ensures Resolve(p, EmptyBox, current) == UnitSquare
  {
  }

  /** Autoscaled limits with a non-negative padding contain the whole data
      box, with increasing spans, whether or not equal scale is on. */
  lemma ResolveContainsData(p: Policy, b: Box, current: Limits)
    requires Consistent(b) && IsValid(b) && p.autoscale && p.padFrac >= 0.0
    ensures var r := Resolve(p, b, current);
      && r.xmin < r.xmax && r.ymin < r.ymax
      && Within(b, Box(Fin(r.xmin), Fin(r.xmax), Fin(r.ymin), Fin(r.ymax)))
  {
    var s := BoxLimits(b);
    PadWidens(s, p.padFrac);
    var padded := FixLimits(Pad(s, p.padFrac));
    if p.equalScale {
      var e := EqualScale(padded);
      EqualScaleProperties(padded);
      assert e.xmin <= padded.xmin && padded.xmax <= e.xmax;
      assert e.ymin <= padded.ymin && padded.ymax <= e.ymax;
    }
  }

  /** Without autoscale the current limits are padded on every render, so
      rendering again after a change pads the already padded limits. */
  lemma ResolveCompoundsPadding(p: Policy, b: Box, current: Limits)
    requires Consistent(b) && !p.autoscale && !p.equalScale && p.padFrac > 0.0
    requires current.xmin < current.xmax && current.ymin < current.ymax
    ensures var once := Resolve(p, b, current);
      var twice := Resolve(p, b, once);
      && current.xmax - current.xmin < once.xmax - once.xmin < twice.xmax - twice.xmin
  {
    var once := Pad(current, p.padFrac);
    PadCompounds(current, p.padFrac);
    PadWidens(current, p.padFrac);
    assert Resolve(p, b, current) == once;
    PadWidens(once, p.padFrac);
    assert Resolve(p, b, once) == Pad(once, p.padFrac);
  }

  /* ---------------------------------------------------------------- */
  /* The older figure                                                  */
  /* ---------------------------------------------------------------- */

  /** Step 1 of the older `render`: the box folded over the line and
      scatter points, the unit square if it stayed empty, or the current
      limits without autoscale. */
  function LegacyStart(autoscale: bool, data: Box, current: Limits): Limits
    requires Consistent(data)
  {
    if !autoscale then current
    else if IsValid(data) then BoxLimits(data)
    else UnitSquare
  }

  /** The limits the older `render` draws with: start, fix, equal scale,
      fix; there is no padding step. */
  function LegacyResolve(autoscale: bool, equal: bool, data: Box, current: Limits): (r: Limits)
    requires Consistent(data)
    ensures NonzeroSpans(r)
  {
    FixLimits(EqualStep(FixLimits(LegacyStart(autoscale, data, current)), equal))
  }

  /** With equal scale the older spans come out equal too. */
  lemma LegacyResolveEqualScale(autoscale: bool, data: Box, current: Limits)
    requires Consistent(data)
    ensures var r := LegacyResolve(autoscale, true, data, current);
      r.xmax - r.xmin == r.ymax - r.ymin
  {
    var fixed := FixLimits(LegacyStart(autoscale, data, current));
    EqualScaleProperties(fixed);
    assert FixLimits(EqualScale(fixed)) == EqualScale(fixed);
  }

  /** Without data the older autoscale falls back to exactly the unit
      square, since it has no padding step. */
  lemma LegacyResolveFallback(equal: bool, current: Limits)
    ensures LegacyResolve(true, equal, EmptyBox, current) == UnitSquare
  {
    assert LegacyStart(true, EmptyBox, current) == UnitSquare;
    assert FixLimits(UnitSquare) == UnitSquare;
    assert EqualScale(UnitSquare) == UnitSquare;
    assert EqualStep(UnitSquare, equal) == UnitSquare;
  }

  /** With data of non-zero spans and no equal scale, the older autoscale
      fits the data box exactly. */
  lemma LegacyResolveTight(data: Box, current: Limits)
    requires Consistent(data) && IsValid(data)
    requires data.xmin != data.xmax && data.ymin != data.ymax
    ensures LegacyResolve(true, false, data, current) == BoxLimits(data)
  {
  }

  /* ---------------------------------------------------------------- */
  /* The zero-span fix in place                                        */
  /* ---------------------------------------------------------------- */

  /** `ensure_nonzero_span(lo, hi)`, returning the updated pair. */
  method EnsureNonzeroSpan(lo: real, hi: real) returns (newLo: real, newHi: real)
    ensures Span(newLo, newHi) == NonzeroSpan(lo, hi)
  {
    newLo, newHi := lo, hi;
    if lo == hi {
      var eps := if Abs(lo) > 0.000000000001 then Abs(lo) * 0.001 else 0.001;
      newLo := newLo - eps;
      newHi := newHi + eps;
    }
  }

  /** `fix_ranges(a)` on the current axes. */
  method FixRanges(a: Axes)
    requires a.Finite()
    modifies a`xmin, a`xmax, a`ymin, a`ymax
    ensures a.Finite() && a.Lim() == FixLimits(old(a.Lim()))
    ensures a.Flags() == old(a.Flags())
  {
    var l := a.Lim();
    var xlo, xhi := EnsureNonzeroSpan(l.xmin, l.xmax);
    var ylo, yhi := EnsureNonzeroSpan(l.ymin, l.ymax);
    a.SetLim(Limits(xlo, xhi, ylo, yhi));
  }

  /** Step 1b of the current `render` in place: pad by `a.padFrac`. */
  method PadAxes(a: Axes)
    requires a.Finite()
    modifies a`xmin, a`xmax, a`ymin, a`ymax
    ensures a.Finite() && a.Lim() == Pad(old(a.Lim()), a.padFrac)
    ensures a.Flags() == old(a.Flags())
  {
    if a.padFrac > 0.0 {
      var l := a.Lim();
      var dx := (l.xmax - l.xmin) * a.padFrac;
      var dy := (l.ymax - l.ymin) * a.padFrac;
      a.SetLim(Limits(l.xmin - dx, l.xmax + dx, l.ymin - dy, l.ymax + dy));
    }
  }

  /** Step 2 of the current `render` in place: equal scale when the flag is set. */
  method EqualizeAxes(a: Axes)
    requires a.Finite()
    modifies a`xmin, a`xmax, a`ymin, a`ymax
    ensures a.Finite() && a.Lim() == EqualStep(old(a.Lim()), a.equalScale)
    ensures a.Flags() == old(a.Flags())
  {
    if a.equalScale {
      var l := a.Lim();
      var span := MaxReal(l.xmax - l.xmin, l.ymax - l.ymin);
      var xmid := 0.5 * (l.xmin + l.xmax);
      var ymid := 0.5 * (l.ymin + l.ymax);
      a.SetLim(Limits(xmid - span / 2.0, xmid + span / 2.0, ymid - span / 2.0, ymid + span / 2.0));
    }
  }

  /** Step 2 of the older `render` in place: equal scale when the flag is set. */
  method LegacyEqualizeAxes(a: LegacyAxes)
    requires a.Finite()
    modifies a`xmin, a`xmax, a`ymin, a`ymax
    ensures a.Finite() && a.Lim() == EqualStep(old(a.Lim()), a.equalScale)
  {
    if a.equalScale {
      var l := a.Lim();
      var span := MaxReal(l.xmax - l.xmin, l.ymax - l.ymin);
      var xmid := 0.5 * (l.xmin + l.xmax);
      var ymid := 0.5 * (l.ymin + l.ymax);
      a.SetLim(Limits(xmid - span / 2.0, xmid + span / 2.0, ymid - span / 2.0, ymid + span / 2.0));
    }
  }

  /** `fix_ranges(a)` on the older axes. */
  method LegacyFixRanges(a: LegacyAxes)
    requires a.Finite()
    modifies a`xmin, a`xmax, a`ymin, a`ymax
    ensures a.Finite() && a.Lim() == FixLimits(old(a.Lim()))
    ensures a.autoscale == old(a.autoscale) && a.equalScale == old(a.equalScale) && a.grid == old(a.grid)
  {
    var l := a.Lim();
    var xlo, xhi := EnsureNonzeroSpan(l.xmin, l.xmax);
    var ylo, yhi := EnsureNonzeroSpan(l.ymin, l.ymax);
    a.SetLim(Limits(xlo, xhi, ylo, yhi));
  }
}
