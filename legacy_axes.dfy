/** The axis state of the older figure (MatPlotOpenCV/include/axes.h): the
    same limits and flags as the current axes, without a padding fraction. */
module LegacyAxesModel {
  import opened Numerics
  import opened AxesModel
  import opened BoundsModel

  class LegacyAxes {
    var xmin: ExtReal
    var xmax: ExtReal
    var ymin: ExtReal
    var ymax: ExtReal
    var autoscale: bool
    var equalScale: bool
    var grid: bool

    /** Default axes: the unit square, autoscaling on, equal scale and grid off. */
    constructor ()
      ensures Finite() && Lim() == UnitSquare
      ensures autoscale && !equalScale && !grid
    {
      xmin, xmax, ymin, ymax := Fin(0.0), Fin(1.0), Fin(0.0), Fin(1.0);
      autoscale, equalScale, grid := true, false, false;
    }

    predicate Finite()
      reads this
    {
      xmin.Fin? && xmax.Fin? && ymin.Fin? && ymax.Fin?
    }

    function Lim(): (l: Limits)
      reads this
      requires Finite()
      ensures Fin(l.xmin) == xmin && Fin(l.xmax) == xmax
      ensures Fin(l.ymin) == ymin && Fin(l.ymax) == ymax
    {
      Limits(xmin.r, xmax.r, ymin.r, ymax.r)
    }

    /** The limits as a box over the extended reals. */
    function Extent(): (b: Box)
      reads this
      ensures b.xmin == xmin && b.xmax == xmax && b.ymin == ymin && b.ymax == ymax
    {
      Box(xmin, xmax, ymin, ymax)
    }

    /** Empty the limits (+inf minima, -inf maxima); the flags keep their values. */
    method Reset()
      modifies this`xmin, this`xmax, this`ymin, this`ymax
      ensures xmin == PosInf && ymin == PosInf
      ensures xmax == NegInf && ymax == NegInf
      ensures Extent() == EmptyBox
      ensures autoscale == old(autoscale) && equalScale == old(equalScale) && grid == old(grid)
    {
      xmin := PosInf;
      ymin := PosInf;
      xmax := NegInf;
      ymax := NegInf;
    }

    method SetLim(l: Limits)
      modifies this`xmin, this`xmax, this`ymin, this`ymax
      ensures Finite() && Lim() == l
    {
      xmin, xmax, ymin, ymax := Fin(l.xmin), Fin(l.xmax), Fin(l.ymin), Fin(l.ymax);
    }
  }
}
