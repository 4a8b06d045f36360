/** The axis state of the current figure (include/axes.h): four data-space
    limits, the padding fraction and three rendering flags. The limits are
    doubles that `reset` sets to the infinities, so they are extended reals. */
module AxesModel {
  import opened Numerics

  /** Finite axis limits in data units. */
  datatype Limits = Limits(xmin: real, xmax: real, ymin: real, ymax: real)

  /** The unit square [0,1] x [0,1], the default and fallback limits. */
  const UnitSquare := Limits(0.0, 1.0, 0.0, 1.0)

  /** Both axes have a non-zero span (the mapper divides by them). */
  predicate NonzeroSpans(l: Limits) {
    l.xmax != l.xmin && l.ymax != l.ymin
  }

  /** The axis flags and padding that axis resolution reads. */
  datatype Policy = Policy(autoscale: bool, equalScale: bool, padFrac: real, grid: bool)

  class Axes {
    var xmin: ExtReal
    var xmax: ExtReal
    var ymin: ExtReal
    var ymax: ExtReal
    /** Fraction of each span added on both ends when rendering. */
    var padFrac: real
    var autoscale: bool
    var equalScale: bool
    var grid: bool

    /** Default axes: the unit square, 5% padding, autoscaling on,
        equal scale and grid off. */
    constructor ()
      ensures Finite() && Lim() == UnitSquare
      ensures padFrac == 0.05
      ensures autoscale && !equalScale && !grid
    {
      xmin, xmax, ymin, ymax := Fin(0.0), Fin(1.0), Fin(0.0), Fin(1.0);
      padFrac := 0.05;
      autoscale, equalScale, grid := true, false, false;
    }

    /** All four limits are finite. */
    predicate Finite()
      reads this
    {
      xmin.Fin? && xmax.Fin? && ymin.Fin? && ymax.Fin?
    }

    function Lim(): (l: Limits)
      reads this
      requires Finite()
      ensures Fin(l.xmin) == xmin && Fin(l.xmax) == xmax
      ensures Fin(l.ymin) == ymin && Fin(l.ymax) == ymax
    {
      Limits(xmin.r, xmax.r, ymin.r, ymax.r)
    }

    function Flags(): (p: Policy)
      reads this
      ensures p.autoscale == autoscale && p.equalScale == equalScale
      ensures p.padFrac == padFrac && p.grid == grid
    {
      Policy(autoscale, equalScale, padFrac, grid)
    }

    /** Empty the limits so that a min/max fold starts fresh: the minima
        become +inf and the maxima -inf; nothing else changes. */
    method Reset()
      modifies this`xmin, this`xmax, this`ymin, this`ymax
      ensures xmin == PosInf && ymin == PosInf
      ensures xmax == NegInf && ymax == NegInf
      ensures !Finite()
      ensures padFrac == old(padFrac) && Flags() == old(Flags())
    {
      xmin := PosInf;
      ymin := PosInf;
      xmax := NegInf;
      ymax := NegInf;
    }

    /** Overwrite the four limits with finite values. */
    method SetLim(l: Limits)
      modifies this`xmin, this`xmax, this`ymin, this`ymax
      ensures Finite() && Lim() == l
      ensures Flags() == old(Flags())
    {
      xmin, xmax, ymin, ymax := Fin(l.xmin), Fin(l.xmax), Fin(l.ymin), Fin(l.ymax);
    }
  }
}
