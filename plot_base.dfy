/**
 * Core plotting logic (plotting/base.py): colour limits (locked, symmetric or from the
 * data), stacking of overlays on a base image, and restoring zoom ranges on a plot.
 */
module PlotBase {
  import opened Wrappers
  import opened Frames

  /**
   * `calculate_color_limits(da, lock_clim, vmin, vmax, symmetric)` over the array's
   * values. Locked limits are returned as given when both are present; otherwise the
   * limits come from the data, and `min()` of an empty array raises.
   */
  function CalculateColorLimits(values: seq<real>, lockClim: bool, vmin: Option<real>, vmax: Option<real>,
                                symmetric: bool): (r: Outcome<(real, real)>)
    ensures lockClim && vmin.Some? && vmax.Some? ==> r == Returns((vmin.value, vmax.value))
    ensures !(lockClim && vmin.Some? && vmax.Some?) ==> (r.Raises? <==> |values| == 0)
    ensures !(lockClim && vmin.Some? && vmax.Some?) && symmetric && r.Returns? ==>
      r.value.0 == -r.value.1
      && (forall i :: 0 <= i < |values| ==> r.value.0 <= values[i] <= r.value.1)
      && (exists i :: 0 <= i < |values| && Abs(values[i]) == r.value.1)
    ensures !(lockClim && vmin.Some? && vmax.Some?) && !symmetric && r.Returns? ==>
      r.value.0 <= r.value.1
      && (forall i :: 0 <= i < |values| ==> r.value.0 <= values[i] <= r.value.1)
      && r.value.0 in values && r.value.1 in values
  {
    if lockClim && vmin.Some? && vmax.Some? then Returns((vmin.value, vmax.value))
    else if |values| == 0 then Raises
    else
      var lo := SeqMin(values);
      var hi := SeqMax(values);
      if symmetric then
        var m := Max(Abs(lo), Abs(hi));
        assert forall i :: 0 <= i < |values| ==> lo <= values[i] <= hi;
        assert m == Abs(lo) || m == Abs(hi);
        Returns((-m, m))
      else Returns((lo, hi))
  }

  /** The doc example: symmetric limits satisfy `vmin == -vmax`, whatever the data. */
  lemma SymmetricLimitsBalanced(values: seq<real>, vmin: Option<real>, vmax: Option<real>)
    requires |values| > 0
    ensures CalculateColorLimits(values, false, vmin, vmax, true).Returns?
    ensures CalculateColorLimits(values, false, vmin, vmax, true).value.0
            == -CalculateColorLimits(values, false, vmin, vmax, true).value.1
  {
  }

  /** A plot built by overlaying: a base element, or a plot with one more layer on top. */
  datatype Composite<E> = Single(base: E) | Stack(below: Composite<E>, top: E)

  /** The layers of a plot, bottom-most first. */
  function Layers<E>(p: Composite<E>): (r: seq<E>)
    ensures |r| > 0
  {
    match p
    case Single(e) => [e]
    case Stack(below, top) => Layers(below) + [top]
  }

  /** The overlays that are not `None`, in list order. */
  function Present<E>(xs: seq<Option<E>>): (r: seq<E>)
    ensures |r| <= |xs|
    ensures forall i :: 0 <= i < |xs| && xs[i].Some? ==> xs[i].value in r
    ensures forall j :: 0 <= j < |r| ==> Some(r[j]) in xs
  {
    if |xs| == 0 then []
    else
      var front := Present(xs[..|xs| - 1]);
      assert forall i :: 0 <= i < |xs| - 1 ==> xs[i] == xs[..|xs| - 1][i];
      front + match xs[|xs| - 1] case Some(e) => [e] case None => []
  }

  /** Without `None` entries nothing is skipped: every overlay becomes a layer, in order. */
  lemma {:induction false} PresentKeepsAll<E>(xs: seq<Option<E>>)
    requires forall i :: 0 <= i < |xs| ==> xs[i].Some?
    ensures |Present(xs)| == |xs|
    ensures forall i :: 0 <= i < |xs| ==> Present(xs)[i] == xs[i].value
    decreases |xs|
  {
    if |xs| > 0 {
      PresentKeepsAll(xs[..|xs| - 1]);
    }
  }

  /**
   * `compose_plot(base_image, overlays)`: the base at the bottom and each present
   * overlay stacked on top in list order; no list, or an empty one, leaves the base.
   */
  method ComposePlot<E>(base: E, overlays: Option<seq<Option<E>>>) returns (p: Composite<E>)
    ensures Layers(p) == [base] + if overlays.Some? then Present(overlays.value) else []
  {
    p := Single(base);
    if overlays.Some? && |overlays.value| > 0 {
      var xs := overlays.value;
      for i := 0 to |xs|
        invariant Layers(p) == [base] + Present(xs[..i])
      {
        assert xs[..i + 1][..i] == xs[..i];
        if xs[i].Some? {
          p := Stack(p, xs[i].value);
        }
      }
      assert xs[..|xs|] == xs;
    }
  }

  /** A plot element with the axis limits set on it, if any. */
  datatype View<E> = View(element: E, xlim: Option<ViewRange>, ylim: Option<ViewRange>)

  /**
   * `apply_ranges(plot_obj, x_range, y_range)`: each range is set as the axis limit
   * only when it is present and none of its ends is missing.
   */
  function ApplyRanges<E>(p: View<E>, xRange: Option<ViewRange>, yRange: Option<ViewRange>): (r: View<E>)
    ensures r.element == p.element
    ensures FullyGiven(xRange) ==> r.xlim == xRange
    ensures !FullyGiven(xRange) ==> r.xlim == p.xlim
    ensures FullyGiven(yRange) ==> r.ylim == yRange
    ensures !FullyGiven(yRange) ==> r.ylim == p.ylim
  {
    var withX := if FullyGiven(xRange) then p.(xlim := xRange) else p;
    if FullyGiven(yRange) then withX.(ylim := yRange) else withX
  }

  /** Applying the same ranges twice is the same as applying them once. */
  lemma ApplyRangesIdempotent<E>(p: View<E>, xRange: Option<ViewRange>, yRange: Option<ViewRange>)
    ensures ApplyRanges(ApplyRanges(p, xRange, yRange), xRange, yRange) == ApplyRanges(p, xRange, yRange)
  {
  }
}
