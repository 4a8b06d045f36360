/** The cached data bounding box of the current figure (`Bounds` in
    include/figure.h): a box that starts empty (+inf minima, -inf maxima) and
    is widened in place by every point a command covers. */
module BoundsModel {
  import opened Numerics

  /** A box over the extended reals. */
  datatype Box = Box(xmin: ExtReal, xmax: ExtReal, ymin: ExtReal, ymax: ExtReal)

  /** The initial, empty box. */
  const EmptyBox := Box(PosInf, NegInf, PosInf, NegInf)

  /** `valid()`: the box has seen a point, read off a finite `xmin`. */
  predicate IsValid(b: Box) {
    b.xmin.Fin?
  }

  /** The only boxes that expansion reaches from the empty one: the empty box
      itself, or a finite box whose minima do not exceed its maxima. */
  predicate Consistent(b: Box) {
    b == EmptyBox ||
    (b.xmin.Fin? && b.xmax.Fin? && b.ymin.Fin? && b.ymax.Fin? &&
     b.xmin.r <= b.xmax.r && b.ymin.r <= b.ymax.r)
  }

  predicate Contains(b: Box, x: real, y: real) {
    Le(b.xmin, Fin(x)) && Le(Fin(x), b.xmax) && Le(b.ymin, Fin(y)) && Le(Fin(y), b.ymax)
  }

  /** Every point of `inner` is a point of `outer`. */
  predicate Within(inner: Box, outer: Box) {
    Le(outer.xmin, inner.xmin) && Le(inner.xmax, outer.xmax) &&
    Le(outer.ymin, inner.ymin) && Le(inner.ymax, outer.ymax)
  }

  lemma WithinTransitive(a: Box, b: Box, c: Box)
    requires Within(a, b) && Within(b, c)
    ensures Within(a, c)
  {
    LeTransitive(c.xmin, b.xmin, a.xmin);
    LeTransitive(a.xmax, b.xmax, c.xmax);
    LeTransitive(c.ymin, b.ymin, a.ymin);
    LeTransitive(a.ymax, b.ymax, c.ymax);
  }

  lemma ContainsWithin(a: Box, b: Box, x: real, y: real)
    requires Contains(a, x, y) && Within(a, b)
    ensures Contains(b, x, y)
  {
    LeTransitive(b.xmin, a.xmin, Fin(x));
    LeTransitive(Fin(x), a.xmax, b.xmax);
    LeTransitive(b.ymin, a.ymin, Fin(y));
    LeTransitive(Fin(y), a.ymax, b.ymax);
  }

  /** `expand(x, y)`: each edge moves to the point if the point lies beyond it. */
  function ExpandBox(b: Box, x: real, y: real): Box {
    Box(Min(b.xmin, Fin(x)), Max(b.xmax, Fin(x)), Min(b.ymin, Fin(y)), Max(b.ymax, Fin(y)))
  }

  /** Expansion by a point yields a box that holds the point and the old
      box, is consistent and valid when the old one was consistent, is the
      old box when that already held the point, and moves each edge only to
      the point. */
  lemma ExpandBoxProperties(b: Box, x: real, y: real)
    ensures var r := ExpandBox(b, x, y);
      && Contains(r, x, y) && Within(b, r)
      && (Consistent(b) ==> Consistent(r) && IsValid(r))
      && (Contains(b, x, y) ==> r == b)
      && (r.xmin == b.xmin || r.xmin == Fin(x)) && (r.xmax == b.xmax || r.xmax == Fin(x))
      && (r.ymin == b.ymin || r.ymin == Fin(y)) && (r.ymax == b.ymax || r.ymax == Fin(y))
  {
  }

  /** The box after expanding by the first `n` points `(xs[i], ys[i])`, in order. */
  function ExpandFirst(b: Box, xs: seq<real>, ys: seq<real>, n: nat): Box
    requires n <= |xs| <= |ys|
  {
    if n == 0 then b else ExpandBox(ExpandFirst(b, xs, ys, n - 1), xs[n - 1], ys[n - 1])
  }

  /** The box after expanding by every point of `xs` paired with `ys`. */
  function ExpandAll(b: Box, xs: seq<real>, ys: seq<real>): Box
    requires |xs| <= |ys|
  {
    ExpandFirst(b, xs, ys, |xs|)
  }

  /** Expansion keeps the old box, covers every point seen, keeps a consistent
      box consistent, and makes the box valid as soon as one point is seen. */
  lemma {:induction false} ExpandFirstCovers(b: Box, xs: seq<real>, ys: seq<real>, n: nat)
    requires n <= |xs| <= |ys|
    ensures Within(b, ExpandFirst(b, xs, ys, n))
    ensures forall i :: 0 <= i < n ==> Contains(ExpandFirst(b, xs, ys, n), xs[i], ys[i])
    ensures Consistent(b) ==> Consistent(ExpandFirst(b, xs, ys, n))
    ensures Consistent(b) && n > 0 ==> IsValid(ExpandFirst(b, xs, ys, n))
  {
    if n > 0 {
      var prev := ExpandFirst(b, xs, ys, n - 1);
      var r := ExpandFirst(b, xs, ys, n);
      ExpandFirstCovers(b, xs, ys, n - 1);
      ExpandBoxProperties(prev, xs[n - 1], ys[n - 1]);
      WithinTransitive(b, prev, r);
      forall i | 0 <= i < n ensures Contains(r, xs[i], ys[i]) {
        if i < n - 1 {
          ContainsWithin(prev, r, xs[i], ys[i]);
        }
      }
    }
  }

  lemma ExpandAllCovers(b: Box, xs: seq<real>, ys: seq<real>)
    requires |xs| <= |ys|
    ensures Within(b, ExpandAll(b, xs, ys))
    ensures forall i :: 0 <= i < |xs| ==> Contains(ExpandAll(b, xs, ys), xs[i], ys[i])
    ensures Consistent(b) ==> Consistent(ExpandAll(b, xs, ys))
    ensures Consistent(b) && |xs| > 0 ==> IsValid(ExpandAll(b, xs, ys))
  {
    ExpandFirstCovers(b, xs, ys, |xs|);
  }

  /** Expanding the empty box yields exactly the bounding box of the points:
      every edge is attained by one of them. */
  lemma {:induction false} ExpandFirstTight(xs: seq<real>, ys: seq<real>, n: nat)
    requires 0 < n <= |xs| <= |ys|
    ensures exists i :: 0 <= i < n && ExpandFirst(EmptyBox, xs, ys, n).xmin == Fin(xs[i])
    ensures exists i :: 0 <= i < n && ExpandFirst(EmptyBox, xs, ys, n).xmax == Fin(xs[i])
    ensures exists i :: 0 <= i < n && ExpandFirst(EmptyBox, xs, ys, n).ymin == Fin(ys[i])
    ensures exists i :: 0 <= i < n && ExpandFirst(EmptyBox, xs, ys, n).ymax == Fin(ys[i])
  {
    var r := ExpandFirst(EmptyBox, xs, ys, n);
    if n == 1 {
      assert ExpandFirst(EmptyBox, xs, ys, 0) == EmptyBox;
      ExpandBoxProperties(EmptyBox, xs[0], ys[0]);
      assert r.xmin == Fin(xs[0]) && r.xmax == Fin(xs[0]);
      assert r.ymin == Fin(ys[0]) && r.ymax == Fin(ys[0]);
    } else {
      ExpandFirstTight(xs, ys, n - 1);
    }
  }

  /** The mutable bounds tracker. */
  class Bounds {
    var xmin: ExtReal
    var xmax: ExtReal
    var ymin: ExtReal
    var ymax: ExtReal

    /** A new tracker is empty and therefore not valid. */
    constructor ()
      ensures Extent() == EmptyBox && !IsValid(Extent())
    {
      xmin, xmax, ymin, ymax := PosInf, NegInf, PosInf, NegInf;
    }

    function Extent(): (b: Box)
      reads this
      ensures b.xmin == xmin && b.xmax == xmax && b.ymin == ymin && b.ymax == ymax
    {
      Box(xmin, xmax, ymin, ymax)
    }

    /** `valid()`. */
    predicate Valid()
      reads this
    {
      IsValid(Extent())
    }

    /** `expand(x, y)`: widen the box so that it contains the point. */
    method Expand(x: real, y: real)
      modifies this
      ensures Extent() == ExpandBox(old(Extent()), x, y)
      ensures Contains(Extent(), x, y) && Within(old(Extent()), Extent())
      ensures Consistent(old(Extent())) ==> Consistent(Extent()) && Valid()
    {
      ExpandBoxProperties(Extent(), x, y);
      xmin := Min(xmin, Fin(x));
      xmax := Max(xmax, Fin(x));
      ymin := Min(ymin, Fin(y));
      ymax := Max(ymax, Fin(y));
    }
  }
}
