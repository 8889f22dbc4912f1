/**
 * The domain map selector (ui/map_selector.py): conversions between slider index ranges
 * and map degrees, and the two-click rectangle selection kept in step with the x and y
 * range sliders.
 */
module MapSelector {
  import opened Wrappers
  import opened Frames

  /** `int(np.argmin(np.abs(coords - v)))`: the first index of least distance to `v`. */
  function NearestIndex(coords: seq<real>, v: real): (r: nat)
    requires |coords| > 0
    ensures r < |coords|
    ensures forall j :: 0 <= j < |coords| ==> Abs(coords[r] - v) <= Abs(coords[j] - v)
    ensures forall j :: 0 <= j < r ==> Abs(coords[j] - v) > Abs(coords[r] - v)
  {
    if |coords| == 1 then 0
    else
      var k := NearestIndex(coords[..|coords| - 1], v);
      if Abs(coords[|coords| - 1] - v) < Abs(coords[k] - v) then |coords| - 1 else k
  }

  /** Over distinct coordinates, the point nearest to a coordinate value is that coordinate. */
  lemma NearestToCoordinate(coords: seq<real>, j: nat)
    requires Distinct(coords) && j < |coords|
    ensures NearestIndex(coords, coords[j]) == j
  {
    var r := NearestIndex(coords, coords[j]);
    assert Abs(coords[r] - coords[j]) <= Abs(coords[j] - coords[j]);
  }

  /** Python's `min` and `max` of two integers. */
  function MinInt(a: int, b: int): int { if b < a then b else a }

  function MaxInt(a: int, b: int): int { if b > a then b else a }

  /**
   * The clamping of `_indices_to_deg`: the start into `[0, n-1]`, the end to at least one
   * past the start and at most `n`.
   */
  function ClampIndices(idx: Range, n: int): (r: Range)
    ensures r.0 < r.1
    ensures n >= 1 ==> 0 <= r.0 && r.1 - 1 <= n - 1
    ensures 0 <= idx.0 < n ==> r.0 == idx.0
    ensures 0 <= idx.0 < idx.1 <= n ==> r == idx
    ensures r.0 == MaxInt(0, MinInt(idx.0, n - 1))
    ensures r.1 == MaxInt(r.0 + 1, MinInt(idx.1, n))
  {
    var i0 := if idx.0 < n - 1 then idx.0 else n - 1;
    var i0' := if i0 < 0 then 0 else i0;
    var i1 := if idx.1 < n then idx.1 else n;
    var i1' := if i1 < i0' + 1 then i0' + 1 else i1;
    (i0', i1')
  }

  /**
   * `_indices_to_deg(idx_range, coords)`: the coordinates of the clamped first index and
   * of the index before the clamped end; empty coordinates raise (IndexError).
   */
  function IndicesToDeg(idx: Range, coords: seq<real>): (r: Outcome<(real, real)>)
    ensures r.Returns? <==> |coords| > 0
    ensures r.Returns? ==> exists i, k :: 0 <= i <= k < |coords| && r.value == (coords[i], coords[k])
    ensures r.Returns? && 0 <= idx.0 < idx.1 <= |coords| ==> r.value == (coords[idx.0], coords[idx.1 - 1])
    ensures r.Returns? ==> var c := ClampIndices(idx, |coords|); r.value == (coords[c.0], coords[c.1 - 1])
  {
    if |coords| == 0 then Raises
    else
      var c := ClampIndices(idx, |coords|);
      Returns((coords[c.0], coords[c.1 - 1]))
  }

  /**
   * `_deg_to_indices(deg_range, coords)`: the start is the index nearest to the first
   * degree, the end the index nearest to the second, pushed to one past the start when it
   * does not exceed it. Empty coordinates raise (argmin of an empty array).
   */
  function DegToIndices(deg: (real, real), coords: seq<real>): (r: Outcome<Range>)
    ensures r.Returns? <==> |coords| > 0
    ensures r.Returns? ==> r.value.0 < r.value.1
    ensures r.Returns? ==> r.value.0 == NearestIndex(coords, deg.0)
    ensures r.Returns? ==> var n1 := NearestIndex(coords, deg.1);
      r.value.1 == if n1 <= r.value.0 then r.value.0 + 1 else n1
    ensures r.Returns? ==> 0 <= r.value.0 && r.value.1 <= |coords|
  {
    if |coords| == 0 then Raises
    else
      var i0 := NearestIndex(coords, deg.0);
      var i1 := NearestIndex(coords, deg.1);
      Returns((i0, if i1 <= i0 then i0 + 1 else i1))
  }

  /**
   * The box drawn for a slider range `(a, b)` spans `coords[a]` to `coords[b-1]`; clicking
   * exactly those two corners sets the slider to `(a, b-1)`, one point narrower.
   */
  lemma ReclickedBoxNarrows(coords: seq<real>, a: int, b: int)
    requires Distinct(coords)
    requires 0 <= a && a + 1 < b <= |coords|
    ensures IndicesToDeg((a, b), coords).Returns?
    ensures DegToIndices(IndicesToDeg((a, b), coords).value, coords) == Returns((a, b - 1))
  {
    NearestToCoordinate(coords, a);
    NearestToCoordinate(coords, b - 1);
  }

  /** class DomainMapSelector: the slider values it shares, its coordinates, flags and clicks. */
  class DomainMapSelector {
    /** value of the x range slider */
    var xSlider: Range
    /** value of the y range slider */
    var ySlider: Range
    var xcCoords: Option<seq<real>>
    var ycCoords: Option<seq<real>>
    var boxStreamExists: bool
    var pointsStreamExists: bool
    var updatingFromMap: bool
    var updatingFromSlider: bool
    var clickPoints: seq<(real, real)>
    /** how many times the selection box has been asked to redraw */
    var boxRedraws: nat

    /** Between callbacks at most one click is pending and no slider update is in progress. */
    predicate Valid()
      reads this
    {
      |clickPoints| <= 1 && !updatingFromSlider
    }

    constructor (xSlider: Range, ySlider: Range)
      ensures Valid()
      ensures this.xSlider == xSlider && this.ySlider == ySlider
      ensures xcCoords.None? && ycCoords.None? && !boxStreamExists && !pointsStreamExists
      ensures !updatingFromMap && !updatingFromSlider && clickPoints == [] && boxRedraws == 0
    {
      this.xSlider := xSlider;
      this.ySlider := ySlider;
      xcCoords := None;
      ycCoords := None;
      boxStreamExists := false;
      pointsStreamExists := false;
      updatingFromMap := false;
      updatingFromSlider := false;
      clickPoints := [];
      boxRedraws := 0;
    }

    /**
     * The state part of `create_terrain_map`: the terrain's coordinates are stored, the
     * box and point streams created and the box drawn once.
     */
    method LoadCoordinates(xc: seq<real>, yc: seq<real>)
      requires Valid()
      modifies this
      ensures Valid()
      ensures xcCoords == Some(xc) && ycCoords == Some(yc) && boxStreamExists && pointsStreamExists
      ensures boxRedraws == old(boxRedraws) + 1
      ensures xSlider == old(xSlider) && ySlider == old(ySlider) && clickPoints == old(clickPoints)
      ensures updatingFromMap == old(updatingFromMap)
    {
      xcCoords := Some(xc);
      ycCoords := Some(yc);
      boxStreamExists := true;
      pointsStreamExists := true;
      boxRedraws := boxRedraws + 1;
    }

    /** The tap is dropped: a slider update is in progress, a coordinate is missing, or no map. */
    predicate TapIgnored(x: Option<real>, y: Option<real>)
      reads this
    {
      updatingFromSlider || x.None? || y.None? || xcCoords.None? || ycCoords.None?
    }

    /**
     * `_on_tap(x, y)`. An accepted first click is remembered. An accepted second click
     * orders the two corners, converts them to index ranges and sets both sliders, then
     * forgets the clicks and lowers the map-update flag. If a conversion raises, the
     * clicks are forgotten, neither slider changes, and the map-update flag stays raised.
     */
    method OnTap(x: Option<real>, y: Option<real>)
      requires Valid()
      modifies this
      ensures Valid()
      ensures xcCoords == old(xcCoords) && ycCoords == old(ycCoords)
      ensures boxStreamExists == old(boxStreamExists) && pointsStreamExists == old(pointsStreamExists)
      ensures old(TapIgnored(x, y)) ==>
        clickPoints == old(clickPoints) && xSlider == old(xSlider) && ySlider == old(ySlider)
        && updatingFromMap == old(updatingFromMap) && boxRedraws == old(boxRedraws)
      ensures !old(TapIgnored(x, y)) && |old(clickPoints)| == 0 ==>
        clickPoints == [(x.value, y.value)] && xSlider == old(xSlider) && ySlider == old(ySlider)
        && updatingFromMap == old(updatingFromMap) && boxRedraws == old(boxRedraws)
      ensures !old(TapIgnored(x, y)) && |old(clickPoints)| == 1 ==>
        var p := old(clickPoints)[0];
        var xi := DegToIndices((Min(p.0, x.value), Max(p.0, x.value)), old(xcCoords).value);
        var yi := DegToIndices((Min(p.1, y.value), Max(p.1, y.value)), old(ycCoords).value);
        && clickPoints == []
        && (xi.Returns? && yi.Returns? ==>
              xSlider == xi.value && ySlider == yi.value && !updatingFromMap
              && boxRedraws == old(boxRedraws) + (if boxStreamExists then 1 else 0))
        && (!(xi.Returns? && yi.Returns?) ==>
              xSlider == old(xSlider) && ySlider == old(ySlider) && updatingFromMap
              && boxRedraws == old(boxRedraws))
    {
      if updatingFromSlider {
        return;
      }
      if x.None? || y.None? {
        return;
      }
      if xcCoords.None? || ycCoords.None? {
        return;
      }
      clickPoints := clickPoints + [(x.value, y.value)];
      if |clickPoints| == 2 {
        updatingFromMap := true;
        var p1, p2 := clickPoints[0], clickPoints[1];
        var xDeg := (Min(p1.0, p2.0), Max(p1.0, p2.0));
        var yDeg := (Min(p1.1, p2.1), Max(p1.1, p2.1));
        var xi := DegToIndices(xDeg, xcCoords.value);
        if xi.Raises? {
          clickPoints := [];
          return;
        }
        var yi := DegToIndices(yDeg, ycCoords.value);
        if yi.Raises? {
          clickPoints := [];
          return;
        }
        // Setting a slider runs its watcher, which returns at once while the map updates.
        xSlider := xi.value;
        OnSliderChange();
        ySlider := yi.value;
        OnSliderChange();
        if boxStreamExists {
          boxRedraws := boxRedraws + 1;
        }
        clickPoints := [];
        updatingFromMap := false;
      }
    }

    /**
     * `_on_slider_change(event)`: redraws the box unless the map is updating the sliders
     * or there is no box yet; the slider-update flag is down again afterwards.
     */
    method OnSliderChange()
      requires !updatingFromSlider
      modifies this
      ensures !updatingFromSlider
      ensures boxRedraws == old(boxRedraws) + (if !updatingFromMap && boxStreamExists then 1 else 0)
      ensures xSlider == old(xSlider) && ySlider == old(ySlider) && clickPoints == old(clickPoints)
      ensures xcCoords == old(xcCoords) && ycCoords == old(ycCoords) && updatingFromMap == old(updatingFromMap)
      ensures boxStreamExists == old(boxStreamExists) && pointsStreamExists == old(pointsStreamExists)
    {
      if updatingFromMap {
        return;
      }
      if !boxStreamExists {
        return;
      }
      updatingFromSlider := true;
      boxRedraws := boxRedraws + 1;
      updatingFromSlider := false;
    }
  }
}
