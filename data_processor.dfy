/**
 * The data-processing layer (core/data_processor.py): range repair and variable-name
 * resolution, level and surface wind assembly, contour loading, frame-bundle assembly and
 * the dimension utilities.
 *
 * Datasets are opened, masks realigned and dimensions indexed by calls into libraries;
 * those calls are the fields of a `Reader` passed to every operation. Terrain comes from
 * `DataLoader.TerrainSpec`, the value the terrain memo table is proved to return.
 */
module DataProcessor {
  import opened Wrappers
  import opened Frames
  import opened DataLoader

  /** An opened dataset: its data variables and its coordinate variables, in order. */
  datatype Dataset = Dataset(dataVars: seq<DataArray>, coordVars: seq<DataArray>)

  /** The library calls the data layer makes; each may raise. */
  datatype Reader = Reader(
    /** `open_dataset(sim_path, var_name, t_range, z_range, x_range, y_range)` */
    openDataset: (string, string, Value, Value, Range, Range) -> Outcome<Dataset>,
    terrain: TerrainSource,
    /** `mask.reindex_like(like, method='nearest')` */
    alignMask: (seq<bool>, DataArray) -> Outcome<seq<bool>>,
    /** the values of `da.isel({dim: index})` */
    iselValues: (DataArray, string, int) -> Outcome<seq<real>>)

  /** An index range of zero width is widened to width one; any other is left alone. */
  function WidenEmpty(r: Range): (s: Range)
    ensures s.0 == r.0 && s.0 != s.1
    ensures r.0 != r.1 ==> s == r
    ensures r.0 == r.1 ==> s.1 == r.1 + 1
  {
    if r.0 == r.1 then (r.0, r.1 + 1) else r
  }

  /** Some array in the list carries the name. */
  predicate Named(arrs: seq<DataArray>, name: string)
  {
    exists i :: 0 <= i < |arrs| && arrs[i].name == name
  }

  /** The first array with the given name. */
  function FirstNamed(arrs: seq<DataArray>, name: string): (r: Option<DataArray>)
    ensures r.Some? <==> Named(arrs, name)
    ensures r.Some? ==> r.value in arrs && r.value.name == name
  {
    if |arrs| == 0 then None
    else if arrs[0].name == name then Some(arrs[0])
    else
      var r := FirstNamed(arrs[1..], name);
      assert Named(arrs, name) ==> Named(arrs[1..], name) by {
        if Named(arrs, name) {
          var i :| 0 <= i < |arrs| && arrs[i].name == name;
          assert arrs[1..][i - 1] == arrs[i];
        }
      }
      r
  }

  /** `p` is a prefix of `s` (`s.startswith(p)`). */
  predicate StartsWith(s: string, p: string)
  {
    |p| <= |s| && s[..|p|] == p
  }

  /** The first array, in order, whose name starts with the prefix. */
  function FirstPrefixed(arrs: seq<DataArray>, prefix: string): (r: Option<DataArray>)
    ensures r.Some? ==> r.value in arrs && StartsWith(r.value.name, prefix)
    ensures r.None? ==> forall a :: a in arrs ==> !StartsWith(a.name, prefix)
    ensures r.Some? ==> exists i :: 0 <= i < |arrs| && arrs[i] == r.value
                           && forall k :: 0 <= k < i ==> !StartsWith(arrs[k].name, prefix)
  {
    if |arrs| == 0 then None
    else if StartsWith(arrs[0].name, prefix) then Some(arrs[0])
    else
      var r := FirstPrefixed(arrs[1..], prefix);
      if r.Some? then
        var i :| 0 <= i < |arrs[1..]| && arrs[1..][i] == r.value
                 && forall k :: 0 <= k < i ==> !StartsWith(arrs[1..][k].name, prefix);
        assert arrs[i + 1] == r.value;
        assert forall k :: 1 <= k < i + 1 ==> arrs[k] == arrs[1..][k - 1];
        r
      else r
  }

  /**
   * Name resolution of `get_data_array`: the variable of exactly that name (data or
   * coordinate), else the first data variable whose name starts with it (a suffixed
   * variant such as `u_sfc`), else none.
   */
  function ResolveName(ds: Dataset, varName: string): (r: Option<DataArray>)
    ensures Named(ds.dataVars, varName) || Named(ds.coordVars, varName) ==> r.Some? && r.value.name == varName
    ensures !Named(ds.dataVars, varName) && !Named(ds.coordVars, varName) ==> r == FirstPrefixed(ds.dataVars, varName)
    ensures r.Some? ==> StartsWith(r.value.name, varName)
  {
    var exact := FirstNamed(ds.dataVars + ds.coordVars, varName);
    assert Named(ds.dataVars, varName) || Named(ds.coordVars, varName) ==> Named(ds.dataVars + ds.coordVars, varName) by {
      if Named(ds.dataVars, varName) {
        var i :| 0 <= i < |ds.dataVars| && ds.dataVars[i].name == varName;
        assert (ds.dataVars + ds.coordVars)[i] == ds.dataVars[i];
      } else if Named(ds.coordVars, varName) {
        var i :| 0 <= i < |ds.coordVars| && ds.coordVars[i].name == varName;
        assert (ds.dataVars + ds.coordVars)[|ds.dataVars| + i] == ds.coordVars[i];
      }
    }
    assert Named(ds.dataVars + ds.coordVars, varName) ==> Named(ds.dataVars, varName) || Named(ds.coordVars, varName) by {
      if Named(ds.dataVars + ds.coordVars, varName) {
        var i :| 0 <= i < |ds.dataVars + ds.coordVars| && (ds.dataVars + ds.coordVars)[i].name == varName;
        if i < |ds.dataVars| {
          assert ds.dataVars[i] == (ds.dataVars + ds.coordVars)[i];
        } else {
          assert ds.coordVars[i - |ds.dataVars|] == (ds.dataVars + ds.coordVars)[i];
        }
      }
    }
    if exact.Some? then
      assert exact.value.name[..|varName|] == varName;
      exact
    else FirstPrefixed(ds.dataVars, varName)
  }

  /**
   * `get_data_array(...)`: zero-width x and y ranges are widened first; terrain height is
   * served by the terrain loader with the widened ranges; any other name opens the dataset
   * with the widened ranges and resolves the name in it. Reader failures propagate.
   */
  function GetDataArray(rd: Reader, simPath: string, varName: string, t: Value, z: Value, x: Range, y: Range)
    : (r: Outcome<Option<DataArray>>)
    ensures varName == TERRAIN_VAR_NAME ==>
      var tr := TerrainSpec(rd.terrain, simPath, Some(WidenEmpty(x)), Some(WidenEmpty(y)));
      (r.Raises? <==> tr.Raises?) && (r.Returns? ==> r.value == Some(tr.value))
    ensures varName != TERRAIN_VAR_NAME ==>
      var ds := rd.openDataset(simPath, varName, t, z, WidenEmpty(x), WidenEmpty(y));
      (r.Raises? <==> ds.Raises?) && (r.Returns? ==> r.value == ResolveName(ds.value, varName))
  {
    var x' := WidenEmpty(x);
    var y' := WidenEmpty(y);
    if varName == TERRAIN_VAR_NAME then
      match TerrainSpec(rd.terrain, simPath, Some(x'), Some(y'))
      case Raises => Raises
      case Returns(d) => Returns(Some(d))
    else
      match rd.openDataset(simPath, varName, t, z, x', y')
      case Raises => Raises
      case Returns(ds) => Returns(ResolveName(ds, varName))
  }

  /** A loaded terrain-height request is always named terrain height. */
  lemma TerrainRequestIsNamed(rd: Reader, simPath: string, t: Value, z: Value, x: Range, y: Range)
    requires GetDataArray(rd, simPath, TERRAIN_VAR_NAME, t, z, x, y).Returns?
    ensures GetDataArray(rd, simPath, TERRAIN_VAR_NAME, t, z, x, y).value.Some?
    ensures GetDataArray(rd, simPath, TERRAIN_VAR_NAME, t, z, x, y).value.value.name == TERRAIN_VAR_NAME
  {
  }

  // ---------------------------------------------------------------------------
  // Wind
  // ---------------------------------------------------------------------------

  /** Time selector of the surface wind: the start of a 2-tuple, index 0 otherwise. */
  function SurfaceTime(t: Value): (r: Value)
    ensures t.VTuple? && |t.items| == 2 ==> r == VTuple([t.items[0], t.items[0]])
    ensures !(t.VTuple? && |t.items| == 2) ==> r == VTuple([VInt(0), VInt(0)])
  {
    var idx := if t.VTuple? && |t.items| == 2 then t.items[0] else VInt(0);
    VTuple([idx, idx])
  }

  /** The level-index selector `('index', k, k)`. */
  function LevelIndex(k: int): Value
  {
    VTuple([VStr("index"), VInt(k), VInt(k)])
  }

  /** Ocean surface wind is read at level index 1, land surface wind at level index 2. */
  const OCEAN_LEVEL: int := 1
  const LAND_LEVEL: int := 2

  /** `terrain > 0`, elementwise. */
  function LandMask(terrain: DataArray): (m: seq<bool>)
    ensures |m| == |terrain.values|
    ensures forall i :: 0 <= i < |m| ==> (m[i] <==> terrain.values[i] > 0.0)
  {
    seq(|terrain.values|, i requires 0 <= i < |terrain.values| => terrain.values[i] > 0.0)
  }

  /**
   * `ocean.where(~land, land_values)`: the ocean values where the mask is off and the land
   * values where it is on; arrays that do not line up make the call raise.
   */
  function Composite(ocean: DataArray, landWind: DataArray, land: seq<bool>): (r: Option<DataArray>)
    ensures r.Some? <==> |land| == |ocean.values| == |landWind.values|
    ensures r.Some? ==> r.value.dims == ocean.dims && |r.value.values| == |ocean.values|
    ensures r.Some? ==> forall i :: 0 <= i < |land| ==>
      r.value.values[i] == (if land[i] then landWind.values[i] else ocean.values[i])
  {
    if |land| == |ocean.values| == |landWind.values| then
      Some(ocean.(values := seq(|land|, i requires 0 <= i < |land| =>
        if land[i] then landWind.values[i] else ocean.values[i])))
    else None
  }

  /** A load that returned an array. */
  predicate Loaded(o: Outcome<Option<DataArray>>)
  {
    o.Returns? && o.value.Some?
  }

  /** The surface components `(u_ocean, v_ocean, u_land, v_land)`, when all four load. */
  function SurfaceComponents(rd: Reader, simPath: string, t: Value, x: Range, y: Range)
    : (r: Option<(DataArray, DataArray, DataArray, DataArray)>)
    ensures var ts := SurfaceTime(t);
      var uo := GetDataArray(rd, simPath, "u", ts, LevelIndex(OCEAN_LEVEL), x, y);
      var vo := GetDataArray(rd, simPath, "v", ts, LevelIndex(OCEAN_LEVEL), x, y);
      var ul := GetDataArray(rd, simPath, "u", ts, LevelIndex(LAND_LEVEL), x, y);
      var vl := GetDataArray(rd, simPath, "v", ts, LevelIndex(LAND_LEVEL), x, y);
      && (r.Some? <==> Loaded(uo) && Loaded(vo) && Loaded(ul) && Loaded(vl))
      && (r.Some? ==> r.value == (uo.value.value, vo.value.value, ul.value.value, vl.value.value))
  {
    var ts := SurfaceTime(t);
    var uo := GetDataArray(rd, simPath, "u", ts, LevelIndex(OCEAN_LEVEL), x, y);
    var vo := GetDataArray(rd, simPath, "v", ts, LevelIndex(OCEAN_LEVEL), x, y);
    var ul := GetDataArray(rd, simPath, "u", ts, LevelIndex(LAND_LEVEL), x, y);
    var vl := GetDataArray(rd, simPath, "v", ts, LevelIndex(LAND_LEVEL), x, y);
    if Loaded(uo) && Loaded(vo) && Loaded(ul) && Loaded(vl)
    then Some((uo.value.value, vo.value.value, ul.value.value, vl.value.value))
    else None
  }

  /**
   * The composite surface wind: terrain for the (unwidened) ranges gives the land mask;
   * the four components are squeezed, the mask is realigned to the ocean u grid, and each
   * component takes its land value over land and its ocean value elsewhere. Any failure
   * gives none.
   */
  function SurfaceWind(rd: Reader, simPath: string, t: Value, x: Range, y: Range): (r: Option<(DataArray, DataArray)>)
    ensures r.Some? ==> TerrainSpec(rd.terrain, simPath, Some(x), Some(y)).Returns?
    ensures r.Some? ==> SurfaceComponents(rd, simPath, t, x, y).Some?
    ensures r.Some? ==>
      var c := SurfaceComponents(rd, simPath, t, x, y).value;
      var land := rd.alignMask(LandMask(TerrainSpec(rd.terrain, simPath, Some(x), Some(y)).value),
                               SqueezeSingletonDims(c.0));
      && land.Returns?
      && Composite(SqueezeSingletonDims(c.0), SqueezeSingletonDims(c.2), land.value) == Some(r.value.0)
      && Composite(SqueezeSingletonDims(c.1), SqueezeSingletonDims(c.3), land.value) == Some(r.value.1)
  {
    match TerrainSpec(rd.terrain, simPath, Some(x), Some(y))
    case Raises => None
    case Returns(terrain) =>
      match SurfaceComponents(rd, simPath, t, x, y)
      case None => None
      case Some((uo, vo, ul, vl)) =>
        var uo', vo', ul', vl' := SqueezeSingletonDims(uo), SqueezeSingletonDims(vo),
                                  SqueezeSingletonDims(ul), SqueezeSingletonDims(vl);
        match rd.alignMask(LandMask(terrain), uo')
        case Raises => None
        case Returns(land) =>
          var u := Composite(uo', ul', land);
          var v := Composite(vo', vl', land);
          if u.Some? && v.Some? then Some((u.value, v.value)) else None
  }

  /**
   * `get_wind_vectors(...)`: surface wind when asked for, otherwise `u` and `v` at the
   * requested ranges; none unless both components are available, and none on any failure.
   */
  function GetWindVectors(rd: Reader, simPath: string, t: Value, z: Value, x: Range, y: Range, useSurface: bool)
    : (r: Option<(DataArray, DataArray)>)
    ensures useSurface ==> r == SurfaceWind(rd, simPath, t, x, y)
    ensures !useSurface ==>
      var u := GetDataArray(rd, simPath, "u", t, z, x, y);
      var v := GetDataArray(rd, simPath, "v", t, z, x, y);
      && (r.Some? <==> Loaded(u) && Loaded(v))
      && (r.Some? ==> r.value == (u.value.value, v.value.value))
  {
    if useSurface then SurfaceWind(rd, simPath, t, x, y)
    else
      var u := GetDataArray(rd, simPath, "u", t, z, x, y);
      var v := GetDataArray(rd, simPath, "v", t, z, x, y);
      if Loaded(u) && Loaded(v) then Some((u.value.value, v.value.value)) else None
  }

  /** `get_contour_data(...)`: the array, or none when it is missing or loading raises. */
  function GetContourData(rd: Reader, simPath: string, varName: string, t: Value, z: Value, x: Range, y: Range)
    : (r: Option<DataArray>)
    ensures r.Some? <==> Loaded(GetDataArray(rd, simPath, varName, t, z, x, y))
    ensures r.Some? ==> GetDataArray(rd, simPath, varName, t, z, x, y) == Returns(r)
  {
    match GetDataArray(rd, simPath, varName, t, z, x, y)
    case Raises => None
    case Returns(o) => o
  }

  /**
   * `load_frame_bundle(...)`: the bundle always records the ranges and main variable as
   * given; `main` is present when the main variable loaded, `wind` when enabled and
   * loaded, `contour` when enabled with a non-empty variable name and loaded. A failure
   * while loading the main variable propagates.
   */
  function FrameBundle(
    rd: Reader, simPath: string, mainVar: string, t: Value, z: Value, x: Range, y: Range,
    windEnabled: bool, useSurfaceWind: bool, contourEnabled: bool, contourVar: Option<string>)
    : (r: Outcome<Bundle>)
    ensures r.Raises? <==> GetDataArray(rd, simPath, mainVar, t, z, x, y).Raises?
    ensures r.Returns? ==> r.value.tRange == t && r.value.zRange == z && r.value.mainVar == mainVar
    ensures r.Returns? ==> r.value.main == GetDataArray(rd, simPath, mainVar, t, z, x, y).value
    ensures r.Returns? ==>
      r.value.wind == (if windEnabled then GetWindVectors(rd, simPath, t, z, x, y, useSurfaceWind) else None)
    ensures r.Returns? ==>
      r.value.contour == (if contourEnabled && TruthyStr(contourVar)
                          then GetContourData(rd, simPath, contourVar.value, t, z, x, y) else None)
  {
    match GetDataArray(rd, simPath, mainVar, t, z, x, y)
    case Raises => Raises
    case Returns(main) =>
      Returns(Bundle(t, z, mainVar, main,
                     if windEnabled then GetWindVectors(rd, simPath, t, z, x, y, useSurfaceWind) else None,
                     if contourEnabled && TruthyStr(contourVar)
                     then GetContourData(rd, simPath, contourVar.value, t, z, x, y) else None))
  }

  /** The steps of `load_frame_bundle`, building the dictionary entry by entry: FrameBundle. */
  method LoadFrameBundle(
    rd: Reader, simPath: string, mainVar: string, t: Value, z: Value, x: Range, y: Range,
    windEnabled: bool, useSurfaceWind: bool, contourEnabled: bool, contourVar: Option<string>)
    returns (r: Outcome<Bundle>)
    ensures r == FrameBundle(rd, simPath, mainVar, t, z, x, y, windEnabled, useSurfaceWind, contourEnabled, contourVar)
  {
    var result := Bundle(t, z, mainVar, None, None, None);
    var da := GetDataArray(rd, simPath, mainVar, t, z, x, y);
    if da.Raises? {
      return Raises;
    }
    if da.value.Some? {
      result := result.(main := da.value);
    }
    if windEnabled {
      var wind := GetWindVectors(rd, simPath, t, z, x, y, useSurfaceWind);
      if wind.Some? {
        result := result.(wind := wind);
      }
    }
    if contourEnabled && TruthyStr(contourVar) {
      var c := GetContourData(rd, simPath, contourVar.value, t, z, x, y);
      if c.Some? {
        result := result.(contour := c);
      }
    }
    r := Returns(result);
  }

  /** Which keys a bundle holds, as the callers test with `'main' in bundle` and the like. */
  lemma BundleKeysOfLoad(
    rd: Reader, simPath: string, mainVar: string, t: Value, z: Value, x: Range, y: Range,
    windEnabled: bool, useSurfaceWind: bool, contourEnabled: bool, contourVar: Option<string>, b: Bundle)
    requires b.tRange == t && b.zRange == z && b.mainVar == mainVar
    requires GetDataArray(rd, simPath, mainVar, t, z, x, y).Returns?
    requires b.main == GetDataArray(rd, simPath, mainVar, t, z, x, y).value
    requires b.wind == (if windEnabled then GetWindVectors(rd, simPath, t, z, x, y, useSurfaceWind) else None)
    requires b.contour == (if contourEnabled && TruthyStr(contourVar)
                           then GetContourData(rd, simPath, contourVar.value, t, z, x, y) else None)
    ensures {"t_range", "z_range", "main_var"} <= BundleKeys(b)
    ensures "main" in BundleKeys(b) <==> GetDataArray(rd, simPath, mainVar, t, z, x, y).value.Some?
    ensures "wind" in BundleKeys(b) ==> windEnabled
    ensures "contour" in BundleKeys(b) ==> contourEnabled && TruthyStr(contourVar)
    ensures "contour" in BundleKeys(b) <==>
      contourEnabled && TruthyStr(contourVar) && Loaded(GetDataArray(rd, simPath, contourVar.value, t, z, x, y))
    ensures !windEnabled ==> BundleKeys(b) <= {"t_range", "z_range", "main_var", "main", "contour"}
  {
  }

  // ---------------------------------------------------------------------------
  // Dimension utilities
  // ---------------------------------------------------------------------------

  /** Number of elements an array of these dimensions holds. */
  function Product(dims: seq<Dim>): nat
  {
    if |dims| == 0 then 1 else dims[0].size * Product(dims[1..])
  }

  /** The dimensions whose size is not one, in order. */
  function WithoutSingletons(dims: seq<Dim>): (r: seq<Dim>)
    ensures forall d :: d in r <==> d in dims && d.size != 1
  {
    if |dims| == 0 then []
    else
      assert dims == [dims[0]] + dims[1..];
      if dims[0].size == 1 then WithoutSingletons(dims[1..])
      else [dims[0]] + WithoutSingletons(dims[1..])
  }

  /** Dropping length-one dimensions never changes the number of elements. */
  lemma {:induction false} WithoutSingletonsKeepsSize(dims: seq<Dim>)
    ensures Product(WithoutSingletons(dims)) == Product(dims)
  {
    if |dims| > 0 {
      WithoutSingletonsKeepsSize(dims[1..]);
      if dims[0].size != 1 {
        assert ([dims[0]] + WithoutSingletons(dims[1..]))[1..] == WithoutSingletons(dims[1..]);
      }
    }
  }

  /**
   * `squeeze_singleton_dims(da)`: exactly the dimensions of size one are removed; the
   * elements, their order and every other field stay.
   */
  function SqueezeSingletonDims(da: DataArray): (r: DataArray)
    ensures forall d :: d in r.dims <==> d in da.dims && d.size != 1
    ensures Product(r.dims) == Product(da.dims)
    ensures r.values == da.values && r.name == da.name && r.attrs == da.attrs && r.coords == da.coords
  {
    WithoutSingletonsKeepsSize(da.dims);
    da.(dims := WithoutSingletons(da.dims))
  }

  /** The array has a dimension of that name. */
  predicate HasDim(da: DataArray, name: string)
  {
    exists i :: 0 <= i < |da.dims| && da.dims[i].name == name
  }

  /** The dimensions without those of the given name, in order. */
  function DropDim(dims: seq<Dim>, name: string): (r: seq<Dim>)
    ensures forall d :: d in r <==> d in dims && d.name != name
  {
    if |dims| == 0 then []
    else
      assert dims == [dims[0]] + dims[1..];
      if dims[0].name == name then DropDim(dims[1..], name) else [dims[0]] + DropDim(dims[1..], name)
  }

  /** `da.isel({name: index})`: the dimension goes and the values are the selected slab. */
  function Isel(rd: Reader, da: DataArray, name: string, index: int): (r: Outcome<DataArray>)
    ensures r.Returns? ==> !HasDim(r.value, name)
    ensures r.Returns? ==> forall n :: n != name ==> (HasDim(r.value, n) <==> HasDim(da, n))
  {
    match rd.iselValues(da, name, index)
    case Raises => Raises
    case Returns(vals) =>
      var r := da.(dims := DropDim(da.dims, name), values := vals);
      forall i | 0 <= i < |r.dims| ensures r.dims[i].name != name {
        assert r.dims[i] in r.dims;
      }
      forall n | n != name ensures HasDim(r, n) <==> HasDim(da, n) {
        if HasDim(da, n) {
          var i :| 0 <= i < |da.dims| && da.dims[i].name == n;
          assert da.dims[i] in r.dims;
          var j :| 0 <= j < |r.dims| && r.dims[j] == da.dims[i];
        }
        if HasDim(r, n) {
          var j :| 0 <= j < |r.dims| && r.dims[j].name == n;
          assert r.dims[j] in da.dims;
          var i :| 0 <= i < |da.dims| && da.dims[i] == r.dims[j];
        }
      }
      Returns(r)
  }

  /**
   * `select_single_time_level(da, time_idx, lev_idx)`: the time dimension is indexed away
   * only when an index is given and the dimension exists, then likewise the level
   * dimension; every other dimension stays. An indexing failure propagates.
   */
  function SelectSingleTimeLevel(rd: Reader, da: DataArray, timeIdx: Option<int>, levIdx: Option<int>)
    : (r: Outcome<DataArray>)
    ensures timeIdx.None? && levIdx.None? ==> r == Returns(da)
    ensures r.Returns? ==> (HasDim(r.value, "time") <==> HasDim(da, "time") && timeIdx.None?)
    ensures r.Returns? ==> (HasDim(r.value, "lev") <==> HasDim(da, "lev") && levIdx.None?)
    ensures r.Returns? ==> forall n :: n != "time" && n != "lev" ==> (HasDim(r.value, n) <==> HasDim(da, n))
  {
    var afterTime :=
      if timeIdx.Some? && HasDim(da, "time") then Isel(rd, da, "time", timeIdx.value) else Returns(da);
    match afterTime
    case Raises => Raises
    case Returns(d1) =>
      if levIdx.Some? && HasDim(d1, "lev") then Isel(rd, d1, "lev", levIdx.value) else Returns(d1)
  }
}
