/**
 * The application controller (controllers/app_controller.py): the glue between widgets,
 * the application state, the data layer and the frame cache. Widgets are plain record
 * fields; the cache and the state are the shared objects the controller holds.
 */
module AppController {
  import opened Wrappers
  import opened Frames
  import opened DataLoader
  import opened DataProcessor
  import opened FrameCache
  import opened AppStateModel

  /** A selection widget: its options, its value (if any) and whether it is shown. */
  datatype Select<T> = Select(options: seq<T>, value: Option<T>, visible: bool)

  /** A range slider: its bounds and its selected `(low, high)` value. */
  datatype RangeSlider<T> = RangeSlider(start: T, end: T, value: (T, T))

  /** What `get_vertical_info` reports: the height range, if known, and the levels. */
  datatype VerticalInfo = VerticalInfo(heightRange: Option<(real, real)>, levels: seq<real>)

  /** What `get_coordinate_info` reports: the grid size, when known. */
  datatype CoordinateInfo = CoordinateInfo(nx: Option<int>, ny: Option<int>)

  /** The grid size assumed when the coordinate information leaves it out. */
  const DEFAULT_GRID_SIZE: int := 100

  /** Height span given to a vertical range whose top is not above its bottom. */
  const MIN_HEIGHT_SPAN: real := 1000.0

  /** The parameters `_gather_plot_params` collects for one frame. */
  datatype PlotParams = PlotParams(
    simPath: string,
    varName: string,
    tVal: Value,
    zRange: Value,
    xRange: Range,
    yRange: Range,
    windEnabled: bool,
    contourEnabled: bool,
    contourVar: Option<string>,
    useSurfaceWind: bool)

  // ---------------------------------------------------------------------------
  // Time indices
  // ---------------------------------------------------------------------------

  /** `[i for i in s if lo <= i <= hi]` */
  function InRange(s: seq<int>, lo: int, hi: int): (r: seq<int>)
    ensures |r| <= |s|
    ensures forall i :: 0 <= i < |r| ==> lo <= r[i] <= hi
    ensures forall x :: x in r <==> x in s && lo <= x <= hi
  {
    if |s| == 0 then []
    else
      var front := InRange(s[..|s| - 1], lo, hi);
      assert forall x :: x in s <==> x in s[..|s| - 1] || x == s[|s| - 1];
      front + if lo <= s[|s| - 1] <= hi then [s[|s| - 1]] else []
  }

  /** The position of the first element of `s` within `[lo, hi]`, if any. */
  function FirstInRange(s: seq<int>, lo: int, hi: int): (r: Option<nat>)
    ensures r.Some? ==> r.value < |s| && lo <= s[r.value] <= hi
    ensures r.Some? ==> forall j :: 0 <= j < r.value ==> !(lo <= s[j] <= hi)
    ensures r.None? <==> forall j :: 0 <= j < |s| ==> !(lo <= s[j] <= hi)
  {
    if |s| == 0 then None
    else if lo <= s[0] <= hi then Some(0)
    else match FirstInRange(s[1..], lo, hi)
      case Some(k) => Some(k + 1)
      case None => None
  }

  /** With nothing of `s` within the range, the filter is empty. */
  lemma {:induction false} InRangeNone(s: seq<int>, lo: int, hi: int)
    requires forall j :: 0 <= j < |s| ==> !(lo <= s[j] <= hi)
    ensures InRange(s, lo, hi) == []
    decreases |s|
  {
    if |s| > 0 {
      InRangeNone(s[..|s| - 1], lo, hi);
    }
  }

  /** The first element of the filter is the element at the first position within the range. */
  lemma {:induction false} InRangeHead(s: seq<int>, lo: int, hi: int, k: nat)
    requires k < |s| && lo <= s[k] <= hi
    requires forall j :: 0 <= j < k ==> !(lo <= s[j] <= hi)
    ensures |InRange(s, lo, hi)| > 0 && InRange(s, lo, hi)[0] == s[k]
    decreases |s|
  {
    if k < |s| - 1 {
      InRangeHead(s[..|s| - 1], lo, hi, k);
    } else {
      InRangeNone(s[..|s| - 1], lo, hi);
    }
  }

  /** `list(range(n))` */
  function CountUp(n: int): (r: seq<int>)
    ensures |r| == if n > 0 then n else 0
    ensures forall i :: 0 <= i < |r| ==> r[i] == i
  {
    if n <= 0 then [] else seq(n, i => i)
  }

  predicate Ascending(s: seq<int>)
  {
    forall i, j :: 0 <= i < j < |s| ==> s[i] < s[j]
  }

  /**
   * `_get_first_available_time(t_range)`: the first available index within the range,
   * else the first available index, else the start of the range.
   */
  function FirstAvailableTime(available: seq<int>, tRange: (int, int)): (r: int)
    ensures FirstInRange(available, tRange.0, tRange.1).Some? ==>
      r == available[FirstInRange(available, tRange.0, tRange.1).value]
    ensures FirstInRange(available, tRange.0, tRange.1).None? && |available| > 0 ==> r == available[0]
    ensures |available| == 0 ==> r == tRange.0
  {
    var filtered := InRange(available, tRange.0, tRange.1);
    var first := FirstInRange(available, tRange.0, tRange.1);
    if first.Some? then
      InRangeHead(available, tRange.0, tRange.1, first.value);
      filtered[0]
    else
      InRangeNone(available, tRange.0, tRange.1);
      if |available| > 0 then available[0] else tRange.0
  }

  /**
   * Over ascending indices (as `scan_time_indices` returns them), the first available
   * time within the range is the earliest available index from the range's start on.
   */
  lemma FirstAvailableIsEarliest(available: seq<int>, tRange: (int, int), k: nat)
    requires Ascending(available)
    requires k < |available| && tRange.0 <= available[k] <= tRange.1
    ensures tRange.0 <= FirstAvailableTime(available, tRange) <= tRange.1
    ensures forall x :: x in available && x >= tRange.0 ==> FirstAvailableTime(available, tRange) <= x
  {
    var r := FirstAvailableTime(available, tRange);
    var i := FirstInRange(available, tRange.0, tRange.1).value;
    forall x | x in available && x >= tRange.0 ensures r <= x {
      var j :| 0 <= j < |available| && available[j] == x;
      if j < i {
        assert false;
      }
    }
  }

  /**
   * The time indices the slider positions stand for in `_setup_time_slider`: the
   * available indices (or `range(t1 - t0 + 1)` when none are known) that fall within the
   * selected time range, or all of them when none does.
   */
  function SliderTimes(available: seq<int>, tRange: (int, int)): (r: seq<int>)
    ensures var all := if |available| > 0 then available else CountUp(tRange.1 - tRange.0 + 1);
            && (|InRange(all, tRange.0, tRange.1)| > 0 ==> r == InRange(all, tRange.0, tRange.1))
            && (|InRange(all, tRange.0, tRange.1)| == 0 ==> r == all)
            && forall x :: x in r ==> x in all
  {
    var all := if |available| > 0 then available else CountUp(tRange.1 - tRange.0 + 1);
    var filtered := InRange(all, tRange.0, tRange.1);
    if |filtered| > 0 then filtered else all
  }

  /** `time_index_map.get(pos, pos)`: the file index a slider position stands for. */
  function SliderTime(timeIndexMap: map<int, int>, pos: int): (r: int)
    ensures pos in timeIndexMap ==> r == timeIndexMap[pos]
    ensures pos !in timeIndexMap ==> r == pos
  {
    if pos in timeIndexMap then timeIndexMap[pos] else pos
  }

  /** The slider positions `0, 1, ...` of a time list are distinct, so each is found where it stands. */
  lemma PositionOfCountUp(n: int, pos: int)
    requires 0 <= pos < n
    ensures IndexOf(CountUp(n), pos) == Some(pos)
  {
    var s := CountUp(n);
    assert s[pos] == pos;
    var r := IndexOf(s, pos);
    assert r.Some?;
    assert s[r.value] == r.value;
  }

  /**
   * After `_setup_time_slider`, a slider at position `pos` (not the last) makes the
   * prefetch ask for the next time of the list, `times[pos + 1]`.
   */
  lemma NextFrameAfterSetup(times: seq<int>, m: map<int, int>, pos: int)
    requires forall p :: p in m <==> 0 <= p < |times|
    requires forall p :: 0 <= p < |times| ==> m[p] == times[p]
    requires 0 <= pos < |times| - 1
    ensures IndexOf(CountUp(|times|), pos) == Some(pos)
    ensures SliderTime(m, CountUp(|times|)[pos + 1]) == times[pos + 1]
  {
    PositionOfCountUp(|times|, pos);
  }

  // ---------------------------------------------------------------------------
  // Selector retention
  // ---------------------------------------------------------------------------

  /**
   * The value a selector keeps when its options change: the current value if it is
   * still an option, else the first option; `options[0]` of an empty list raises.
   */
  function Retained<T(==)>(options: seq<T>, current: Option<T>): (r: Outcome<T>)
    ensures current.Some? && current.value in options ==> r == Returns(current.value)
    ensures !(current.Some? && current.value in options) && |options| > 0 ==> r == Returns(options[0])
    ensures r.Raises? <==> |options| == 0
    ensures r.Returns? ==> r.value in options
  {
    if current.Some? && current.value in options then Returns(current.value)
    else if |options| > 0 then Returns(options[0])
    else Raises
  }

  /** Retaining a value twice keeps the first choice. */
  lemma RetainedIdempotent<T>(options: seq<T>, current: Option<T>)
    requires Retained(options, current).Returns?
    ensures Retained(options, Some(Retained(options, current).value)) == Retained(options, current)
  {
  }

  /**
   * The level kept by `_setup_level_slider`: the old level, unless a reset is pending
   * or it is not among the levels, in which case the first level (`lev_vals[0]`, which
   * raises on an empty coordinate).
   */
  function LevelChoice(levels: seq<real>, current: Option<real>, reset: bool): (r: Outcome<real>)
    ensures r.Raises? <==> |levels| == 0
    ensures r.Returns? ==> r.value in levels
    ensures !reset && current.Some? && current.value in levels ==> r == Returns(current.value)
    ensures (reset || current.None? || current.value !in levels) && |levels| > 0 ==> r == Returns(levels[0])
  {
    if reset || current.None? || current.value !in levels then
      if |levels| > 0 then Returns(levels[0]) else Raises
    else Returns(current.value)
  }

  /** `groups[key]` of an insertion-ordered dictionary: the entry of the first pair labelled `key`. */
  function MenuEntry(groups: Menu, key: string): (r: seq<string>)
    requires key in Labels(groups)
    ensures exists i :: 0 <= i < |groups| && groups[i] == (key, r) && forall j :: 0 <= j < i ==> groups[j].0 != key
  {
    if groups[0].0 == key then groups[0].1
    else
      assert key in Labels(groups[1..]) by {
        var i :| 0 <= i < |groups| && Labels(groups)[i] == key;
        assert Labels(groups[1..])[i - 1] == key;
      }
      var r := MenuEntry(groups[1..], key);
      assert exists i :: 0 <= i < |groups| && groups[i] == (key, r) && forall j :: 0 <= j < i ==> groups[j].0 != key by {
        var i :| 0 <= i < |groups[1..]| && groups[1..][i] == (key, r) && forall j :: 0 <= j < i ==> groups[1..][j].0 != key;
        assert groups[i + 1] == (key, r);
        assert forall j :: 0 <= j < i + 1 ==> groups[j].0 != key by {
          forall j | 0 <= j < i + 1 ensures groups[j].0 != key {
            if j > 0 { assert groups[j] == groups[1..][j - 1]; }
          }
        }
      }
      r
  }

  // ---------------------------------------------------------------------------
  // Prefetch and the two key shapes
  // ---------------------------------------------------------------------------

  /** The 6-tuple key the controller looks bundles up under. */
  function KeyOf(p: PlotParams): (k: Value)
    ensures IsControllerShaped(k)
  {
    ControllerKey(p.varName, p.tVal, p.zRange, p.windEnabled, p.contourEnabled, p.contourVar)
  }

  /**
   * What `_load_data_bundle` does to the cache, given what loading the frame gives: the
   * result and the new cache contents. The lookup refreshes a cached key first; a cached
   * bundle answers unless `force`; otherwise the loaded bundle is stored, and a load or a
   * store that raises leaves the refreshed cache.
   */
  function CachedLoad(s: LruState, key: Value, load: Outcome<Bundle>, force: bool, maxSize: int)
    : (Outcome<Bundle>, LruState)
  {
    var g := LruGet(s, key);
    if g.1.Some? && !force then (Returns(g.1.value), g.0)
    else match load
      case Raises => (Raises, g.0)
      case Returns(b) =>
        match LruPut(g.0, key, b, maxSize)
        case Raises => (Raises, g.0)
        case Returns(t) => (Returns(b), t)
  }

  /**
   * A cached bundle is returned as it is unless forced; otherwise the result is the loaded
   * bundle, or a raise exactly when loading raises or a new key meets a capacity below 1.
   * A returned bundle is then cached under the key, the cached entries are otherwise only
   * the old ones, and the cache stays well formed.
   */
  lemma CachedLoadSpec(s: LruState, key: Value, load: Outcome<Bundle>, force: bool, maxSize: int)
    requires WellFormed(s, maxSize)
    ensures var (r, t) := CachedLoad(s, key, load, force, maxSize);
      && WellFormed(t, maxSize)
      && (!force && key in s.entries ==> r == Returns(s.entries[key]) && t.entries == s.entries)
      && (force || key !in s.entries ==>
            (r.Raises? <==> load.Raises? || (key !in s.entries && maxSize < 1))
            && (r.Returns? ==> r == load))
      && (r.Returns? ==> key in t.entries && t.entries[key] == r.value)
      && (forall k :: k in t.entries && k != key ==> k in s.entries && t.entries[k] == s.entries[k])
  {
    LruGetKeepsWellFormed(s, key, maxSize);
    var g := LruGet(s, key);
    if !(g.1.Some? && !force) && load.Returns? {
      LruPutRaisesIff(g.0, key, load.value, maxSize);
      if LruPut(g.0, key, load.value, maxSize).Returns? {
        LruPutSpec(g.0, key, load.value, maxSize);
      }
    }
  }

  /**
   * What Controller.LoadDataBundle promises in the source's terms: a cached bundle is returned
   * unless forced; a load raises exactly when reading the main variable raises or a new
   * key meets a capacity below 1; a returned bundle is the one cached under the key.
   */
  lemma LoadDataBundleOutcome(rd: Reader, p: PlotParams, force: bool, s: LruState, maxSize: int)
    requires WellFormed(s, maxSize)
    ensures var load := FrameBundle(rd, p.simPath, p.varName, VTuple([p.tVal, p.tVal]), p.zRange,
                                    p.xRange, p.yRange, p.windEnabled, p.useSurfaceWind,
                                    p.contourEnabled, p.contourVar);
            var (r, t) := CachedLoad(s, KeyOf(p), load, force, maxSize);
            && (!force && KeyOf(p) in s.entries ==> r == Returns(s.entries[KeyOf(p)]))
            && (force || KeyOf(p) !in s.entries ==>
                  (r.Raises? <==> GetDataArray(rd, p.simPath, p.varName, VTuple([p.tVal, p.tVal]), p.zRange,
                                               p.xRange, p.yRange).Raises?
                                  || (KeyOf(p) !in s.entries && maxSize < 1)))
            && (r.Returns? ==> KeyOf(p) in t.entries && t.entries[KeyOf(p)] == r.value)
  {
    var load := FrameBundle(rd, p.simPath, p.varName, VTuple([p.tVal, p.tVal]), p.zRange,
                            p.xRange, p.yRange, p.windEnabled, p.useSurfaceWind,
                            p.contourEnabled, p.contourVar);
    CachedLoadSpec(s, KeyOf(p), load, force, maxSize);
  }

  /**
   * A bundle stored by a prefetch never answers the controller's lookup: storing under
   * a request's 3-tuple key adds no controller key and changes no controller entry (it
   * may only evict one).
   */
  lemma PrefetchNeverServesController(s: LruState, r: FrameRequest, b: Bundle, maxSize: int, p: PlotParams)
    requires WellFormed(s, maxSize)
    requires LruPut(s, RequestKey(r), b, maxSize).Returns?
    ensures var t := LruPut(s, RequestKey(r), b, maxSize).value;
            KeyOf(p) in t.entries ==> KeyOf(p) in s.entries && t.entries[KeyOf(p)] == s.entries[KeyOf(p)]
  {
    LruPutSpec(s, RequestKey(r), b, maxSize);
    RequestKeyIsNeverControllerKey(r, p.varName, p.tVal, p.zRange, p.windEnabled, p.contourEnabled, p.contourVar);
  }

  /** class AppController: the widgets it drives, the shared state and the frame cache. */
  class Controller {
    const state: AppState
    const cache: CacheManager
    var category: Select<string>
    var variable: Select<string>
    /** `None` when there is no contour category selector. */
    var contourCategory: Option<Select<string>>
    var timeRange: RangeSlider<int>
    var levRange: RangeSlider<real>
    var xRange: RangeSlider<int>
    var yRange: RangeSlider<int>
    var levSlider: Select<real>
    /** the time slider; its visibility stands for all the time controls */
    var timeSlider: Select<int>

    ghost predicate Valid()
      reads this, cache
    {
      cache.Valid()
    }

    constructor (state: AppState, cache: CacheManager, category: Select<string>, variable: Select<string>,
                 contourCategory: Option<Select<string>>, timeRange: RangeSlider<int>, levRange: RangeSlider<real>,
                 xRange: RangeSlider<int>, yRange: RangeSlider<int>, levSlider: Select<real>, timeSlider: Select<int>)
      ensures this.state == state && this.cache == cache
      ensures this.category == category && this.variable == variable && this.contourCategory == contourCategory
      ensures this.timeRange == timeRange && this.levRange == levRange
      ensures this.xRange == xRange && this.yRange == yRange
      ensures this.levSlider == levSlider && this.timeSlider == timeSlider
    {
      this.state := state;
      this.cache := cache;
      this.category := category;
      this.variable := variable;
      this.contourCategory := contourCategory;
      this.timeRange := timeRange;
      this.levRange := levRange;
      this.xRange := xRange;
      this.yRange := yRange;
      this.levSlider := levSlider;
      this.timeSlider := timeSlider;
    }

    /**
     * `_update_variable_selectors(groups)`: the category options become the group
     * names. A current category that survives keeps its value and offers its variables,
     * retaining the current variable; otherwise the first category is chosen. The contour
     * category selector gets the same options and keeps a surviving value.
     */
    method UpdateVariableSelectors(groups: Menu) returns (raised: bool)
      modifies this
      ensures category.options == Labels(groups)
      ensures var cur := old(category.value);
              && (cur.Some? && cur.value in Labels(groups) ==>
                    && category.value == cur
                    && variable.options == MenuEntry(groups, cur.value)
                    && (raised <==> Retained(MenuEntry(groups, cur.value), old(variable.value)).Raises?)
                    && (!raised ==> variable.value == Some(Retained(MenuEntry(groups, cur.value), old(variable.value)).value)))
              && (!(cur.Some? && cur.value in Labels(groups)) ==>
                    && !raised && variable == old(variable)
                    && category.value == if |groups| > 0 then Some(groups[0].0) else cur)
      ensures raised ==> contourCategory == old(contourCategory)
      ensures !raised && old(contourCategory).Some? ==>
        && contourCategory.Some?
        && contourCategory.value.options == Labels(groups)
        && contourCategory.value.value == (if |groups| > 0 && (old(contourCategory.value.value).None?
                                             || old(contourCategory.value.value).value !in Labels(groups))
                                           then Some(groups[0].0) else old(contourCategory.value.value))
      ensures old(contourCategory).None? ==> contourCategory.None?
      ensures timeSlider == old(timeSlider) && levSlider == old(levSlider)
    {
      var categories := Labels(groups);
      category := category.(options := categories);
      var cur := category.value;
      if cur.Some? && cur.value in categories {
        var vars := MenuEntry(groups, cur.value);
        variable := variable.(options := vars);
        var kept := Retained(vars, variable.value);
        if kept.Raises? {
          return true;
        }
        variable := variable.(value := Some(kept.value));
      } else if |categories| > 0 {
        category := category.(value := Some(categories[0]));
      }
      if contourCategory.Some? {
        var cc := contourCategory.value.(options := categories);
        if (cc.value.None? || cc.value.value !in categories) && |categories| > 0 {
          cc := cc.(value := Some(categories[0]));
        }
        contourCategory := Some(cc);
      }
      raised := false;
    }

    /**
     * `on_category_change(event)`: a known category offers its variables and retains
     * the current variable, or chooses the first one; an unknown category changes nothing.
     */
    method OnCategoryChange(newCategory: string) returns (raised: bool)
      modifies this
      ensures newCategory !in Labels(state.variableGroups) ==> !raised && variable == old(variable)
      ensures newCategory in Labels(state.variableGroups) ==>
        var vars := MenuEntry(state.variableGroups, newCategory);
        && variable.options == vars
        && (raised <==> |vars| == 0)
        && (!raised ==> variable.value == Some(Retained(vars, old(variable.value)).value))
      ensures category == old(category) && contourCategory == old(contourCategory)
      ensures timeSlider == old(timeSlider) && levSlider == old(levSlider)
    {
      var groups := state.variableGroups;
      raised := false;
      if newCategory in Labels(groups) {
        var vars := MenuEntry(groups, newCategory);
        variable := variable.(options := vars);
        var kept := Retained(vars, variable.value);
        if kept.Raises? {
          return true;
        }
        variable := variable.(value := Some(kept.value));
      }
    }

    /**
     * `_update_range_sliders(sim_path)`, with the directory listing, the vertical
     * information and the coordinate information as inputs. The time range spans the
     * scanned indices; a known height range is made non-empty; a known grid sets the x
     * and y ranges, and a grid size different from the previous one clears the saved zoom.
     */
    method UpdateRangeSliders(files: seq<string>, zInfo: Option<VerticalInfo>, coordInfo: Option<CoordinateInfo>)
      modifies this, state
      ensures |state.availableTimeIndices| > 0
      ensures timeRange.start == state.availableTimeIndices[0]
      ensures timeRange.end == state.availableTimeIndices[|state.availableTimeIndices| - 1]
      ensures timeRange.value == (timeRange.start, timeRange.end)
      ensures zInfo.Some? && zInfo.value.heightRange.Some? ==>
        var (lo, hi) := zInfo.value.heightRange.value;
        && levRange.start == lo && levRange.value == (levRange.start, levRange.end)
        && levRange.start < levRange.end
        && levRange.end == if hi <= lo then lo + MIN_HEIGHT_SPAN else hi
      ensures zInfo.Some? && zInfo.value.heightRange.Some? && |zInfo.value.levels| > 0 ==>
        levSlider == old(levSlider).(options := [zInfo.value.levels[0]], value := Some(zInfo.value.levels[0]))
      ensures !(zInfo.Some? && zInfo.value.heightRange.Some?) ==> levRange == old(levRange)
      ensures !(zInfo.Some? && zInfo.value.heightRange.Some? && |zInfo.value.levels| > 0) ==> levSlider == old(levSlider)
      ensures coordInfo.None? ==>
        xRange == old(xRange) && yRange == old(yRange) && state.tempGridBounds == old(state.tempGridBounds)
        && state.savedXRange == old(state.savedXRange) && state.savedYRange == old(state.savedYRange)
      ensures coordInfo.Some? ==>
        var nx := if coordInfo.value.nx.Some? then coordInfo.value.nx.value else DEFAULT_GRID_SIZE;
        var ny := if coordInfo.value.ny.Some? then coordInfo.value.ny.value else DEFAULT_GRID_SIZE;
        && xRange == RangeSlider(0, nx, (0, nx)) && yRange == RangeSlider(0, ny, (0, ny))
        && state.tempGridBounds == Some((nx, ny))
        && (old(state.tempGridBounds).Some? && old(state.tempGridBounds).value != (nx, ny) ==>
              state.savedXRange.None? && state.savedYRange.None?)
        && (!(old(state.tempGridBounds).Some? && old(state.tempGridBounds).value != (nx, ny)) ==>
              state.savedXRange == old(state.savedXRange) && state.savedYRange == old(state.savedYRange))
      ensures category == old(category) && variable == old(variable) && timeSlider == old(timeSlider)
    {
      var available := ScanTimeIndices(files);
      state.availableTimeIndices := available;
      var tMin := if |available| > 0 then available[0] else 0;
      var tMax := if |available| > 0 then available[|available| - 1] else 0;
      timeRange := RangeSlider(tMin, tMax, (tMin, tMax));

      if zInfo.Some? && zInfo.value.heightRange.Some? {
        var (zMin, zMax) := zInfo.value.heightRange.value;
        if zMax <= zMin {
          zMax := zMin + MIN_HEIGHT_SPAN;
        }
        levRange := RangeSlider(zMin, zMax, (zMin, zMax));
        if |zInfo.value.levels| > 0 {
          var first := zInfo.value.levels[0];
          levSlider := levSlider.(options := [first], value := Some(first));
        }
      }

      if coordInfo.Some? {
        var nx := if coordInfo.value.nx.Some? then coordInfo.value.nx.value else DEFAULT_GRID_SIZE;
        var ny := if coordInfo.value.ny.Some? then coordInfo.value.ny.value else DEFAULT_GRID_SIZE;
        SetGridSize(nx, ny);
      }
    }

    /**
     * The grid part of `_update_range_sliders`: the x and y ranges span the grid, and a
     * grid size different from the previous one clears the saved zoom.
     */
    method SetGridSize(nx: int, ny: int)
      modifies this, state
      ensures xRange == RangeSlider(0, nx, (0, nx)) && yRange == RangeSlider(0, ny, (0, ny))
      ensures state.tempGridBounds == Some((nx, ny))
      ensures old(state.tempGridBounds).Some? && old(state.tempGridBounds).value != (nx, ny) ==>
        state.savedXRange.None? && state.savedYRange.None?
      ensures !(old(state.tempGridBounds).Some? && old(state.tempGridBounds).value != (nx, ny)) ==>
        state.savedXRange == old(state.savedXRange) && state.savedYRange == old(state.savedYRange)
      ensures state.availableTimeIndices == old(state.availableTimeIndices)
      ensures timeRange == old(timeRange) && levRange == old(levRange) && levSlider == old(levSlider)
      ensures category == old(category) && variable == old(variable) && timeSlider == old(timeSlider)
    {
      xRange := RangeSlider(0, nx, (0, nx));
      yRange := RangeSlider(0, ny, (0, ny));
      var newBounds := (nx, ny);
      if state.tempGridBounds.Some? && state.tempGridBounds.value != newBounds {
        state.savedXRange := None;
        state.savedYRange := None;
      }
      state.tempGridBounds := Some(newBounds);
    }

    /**
     * `_setup_time_slider(da_sample)`: without a time dimension the time controls are
     * hidden. Otherwise slider position `i` stands for the `i`-th time of SliderTimes,
     * recorded in the state's `time_index_map`, and the old position is kept when it is
     * still a position, else reset to 0.
     */
    method SetupTimeSlider(hasTimeDim: bool)
      modifies this, state
      ensures !hasTimeDim ==>
        timeSlider == old(timeSlider).(visible := false) && state.timeIndexMap == old(state.timeIndexMap)
      ensures hasTimeDim ==>
        var times := SliderTimes(old(state.availableTimeIndices), old(timeRange.value));
        && (forall p :: p in state.timeIndexMap <==> 0 <= p < |times|)
        && (forall p :: 0 <= p < |times| ==> state.timeIndexMap[p] == times[p])
        && timeSlider.options == CountUp(|times|)
        && timeSlider.value == Some(if old(timeSlider.value).Some? && old(timeSlider.value).value < |times|
                                    then old(timeSlider.value).value else 0)
        && timeSlider.visible
      ensures state.availableTimeIndices == old(state.availableTimeIndices)
      ensures timeRange == old(timeRange) && levSlider == old(levSlider)
    {
      if !hasTimeDim {
        timeSlider := timeSlider.(visible := false);
        return;
      }
      var times := SliderTimes(state.availableTimeIndices, timeRange.value);
      var positions: seq<int> := [];
      var m: map<int, int> := map[];
      for pos := 0 to |times|
        invariant positions == CountUp(pos)
        invariant forall p :: p in m <==> 0 <= p < pos
        invariant forall p :: 0 <= p < pos ==> m[p] == times[p]
      {
        positions := positions + [pos];
        m := m[pos := times[pos]];
      }
      state.timeIndexMap := m;
      var oldPos := timeSlider.value;
      var newPos := if oldPos.Some? && oldPos.value < |times| then oldPos.value else 0;
      timeSlider := Select(positions, Some(newPos), true);
    }

    /**
     * `_setup_level_slider(da_sample, lev)`: without a level dimension the slider is
     * hidden and the state forgets its levels and any pending reset. Otherwise the levels
     * become the options and LevelChoice picks the value; an empty level coordinate raises
     * before the reset flag is cleared.
     */
    method SetupLevelSlider(hasLevDim: bool, lev: seq<real>) returns (raised: bool)
      modifies this, state
      ensures !hasLevDim ==>
        !raised && state.levVals.None? && !state.resetLevSlider && levSlider == old(levSlider).(visible := false)
      ensures hasLevDim ==>
        var choice := LevelChoice(lev, old(levSlider.value), old(state.resetLevSlider));
        && state.levVals == Some(lev)
        && levSlider.options == lev
        && (raised <==> choice.Raises?)
        && (raised ==> state.resetLevSlider == old(state.resetLevSlider) && levSlider.value == old(levSlider.value))
        && (!raised ==> levSlider.value == Some(choice.value) && levSlider.visible && !state.resetLevSlider)
      ensures timeSlider == old(timeSlider) && state.timeIndexMap == old(state.timeIndexMap)
    {
      if !hasLevDim {
        state.levVals := None;
        state.resetLevSlider := false;
        levSlider := levSlider.(visible := false);
        return false;
      }
      state.levVals := Some(lev);
      levSlider := levSlider.(options := lev);
      var choice := LevelChoice(lev, levSlider.value, state.resetLevSlider);
      if choice.Raises? {
        return true;
      }
      levSlider := levSlider.(value := Some(choice.value));
      state.resetLevSlider := false;
      levSlider := levSlider.(visible := true);
      raised := false;
    }

    /**
     * `_load_data_bundle(params, force)`: the key is looked up first (refreshing it and
     * counting a hit or a miss); a cached bundle is returned as it is unless `force`;
     * otherwise the frame is loaded (FrameBundle) and stored under the same 6-tuple key.
     * A load or a store that raises propagates.
     */
    method LoadDataBundle(rd: Reader, p: PlotParams, force: bool) returns (r: Outcome<Bundle>)
      requires Valid()
      modifies cache
      ensures Valid()
      ensures (r, cache.State()) == CachedLoad(old(cache.State()), KeyOf(p),
                                      FrameBundle(rd, p.simPath, p.varName, VTuple([p.tVal, p.tVal]), p.zRange,
                                                  p.xRange, p.yRange, p.windEnabled, p.useSurfaceWind,
                                                  p.contourEnabled, p.contourVar),
                                      force, cache.maxSize)
      ensures cache.metrics == if KeyOf(p) in old(cache.frameCache)
                               then old(cache.metrics).(hits := old(cache.metrics).hits + 1)
                               else old(cache.metrics).(misses := old(cache.metrics).misses + 1)
      ensures cache.futures == old(cache.futures) && cache.executorShutdown == old(cache.executorShutdown)
    {
      var key := KeyOf(p);
      var cached := cache.Get(key);
      if cached.Some? && !force {
        return Returns(cached.value);
      }
      var loaded := LoadFrameBundle(rd, p.simPath, p.varName, VTuple([p.tVal, p.tVal]), p.zRange,
                                    p.xRange, p.yRange, p.windEnabled, p.useSurfaceWind,
                                    p.contourEnabled, p.contourVar);
      if loaded.Raises? {
        return Raises;
      }
      var raised := cache.Put(key, loaded.value);
      if raised {
        return Raises;
      }
      r := loaded;
    }

    /**
     * `_prefetch_next_frame(params)`: when the time controls are shown and the slider is
     * at a known position other than the last, the frame at the next position is
     * submitted for prefetch under the time `time_index_map` gives it, with the effect
     * `prefetch_async` has on the tasks and metrics. The submitted request is returned; a
     * failing submit is swallowed.
     */
    method PrefetchNextFrame(p: PlotParams) returns (submitted: Option<FrameRequest>)
      requires Valid()
      modifies cache
      ensures Valid()
      ensures cache.State() == old(cache.State()) && cache.executorShutdown == old(cache.executorShutdown)
      ensures var opts := timeSlider.options;
              var cur := timeSlider.value;
              submitted.Some? <==> timeSlider.visible && cur.Some? && cur.value in opts
                                   && IndexOf(opts, cur.value).value < |opts| - 1
      ensures submitted.Some? ==>
        var opts := timeSlider.options;
        var next := SliderTime(state.timeIndexMap, opts[IndexOf(opts, timeSlider.value.value).value + 1]);
        submitted.value == FrameRequest(p.simPath, p.varName, IntPair(next, next), p.zRange, p.xRange, p.yRange,
                                         p.windEnabled, p.useSurfaceWind, p.contourEnabled, p.contourVar)
      ensures submitted.Some? ==>
        if !cache.enablePrefetch || RequestKey(submitted.value) in old(cache.frameCache)
        then cache.futures == old(cache.futures) && cache.metrics == old(cache.metrics)
        else
          && cache.metrics == old(cache.metrics).(prefetchCancelled := old(cache.metrics).prefetchCancelled
                                                  + if CurrentQueued(old(cache.futures)) then 1 else 0)
          && cache.futures == CancelCurrent(old(cache.futures))
                              + (if cache.executorShutdown then [] else [Future(submitted.value, Pending)])
      ensures submitted.None? ==> cache.futures == old(cache.futures) && cache.metrics == old(cache.metrics)
    {
      if !timeSlider.visible {
        return None;
      }
      var opts := timeSlider.options;
      var cur := timeSlider.value;
      if cur.Some? && cur.value in opts {
        var pos := IndexOf(opts, cur.value).value;
        if pos < |opts| - 1 {
          var nextT := SliderTime(state.timeIndexMap, opts[pos + 1]);
          var req := FrameRequest(p.simPath, p.varName, IntPair(nextT, nextT), p.zRange, p.xRange, p.yRange,
                                  p.windEnabled, p.useSurfaceWind, p.contourEnabled, p.contourVar);
          var _ := cache.PrefetchAsync(req);
          return Some(req);
        }
      }
      return None;
    }

    /**
     * The guards at the head of `update_plot(force)`: a simulation is selected, it is
     * not being loaded (unless forced), and data has been loaded.
     */
    method UpdatePlotProceeds(force: bool) returns (proceed: bool)
      ensures proceed <==> TruthyStr(state.currentSimPath) && (!state.isLoadingSimulation || force) && state.hasDataLoaded
      ensures !force && state.isLoadingSimulation ==> !proceed
    {
      proceed := TruthyStr(state.currentSimPath) && (!state.isLoadingSimulation || force) && state.hasDataLoaded;
    }
  }
}
