/**
 * Values shared by the cache, the data layer and the controller: Python values as they
 * appear in selector tuples and cache keys, realised data arrays, frame requests, frame
 * bundles and the two cache-key functions.
 */
module Frames {
  import opened Wrappers

  /** A Python value as it occurs in range selectors and cache keys. */
  datatype Value =
    | VNone
    | VBool(b: bool)
    | VInt(i: int)
    | VReal(r: real)
    | VStr(s: string)
    | VTuple(items: seq<Value>)

  /** An integer index pair `(a, b)`. */
  type Range = (int, int)

  /** The Python tuple `(a, b)` of two integers. */
  function IntPair(a: int, b: int): Value
  {
    VTuple([VInt(a), VInt(b)])
  }

  /** An optional string as a Python value: `None` or the string. */
  function OptionalStr(o: Option<string>): Value
  {
    match o
    case None => VNone
    case Some(s) => VStr(s)
  }

  /** Python truthiness of an optional string: present and non-empty. */
  predicate TruthyStr(o: Option<string>)
  {
    o.Some? && |o.value| > 0
  }

  /** No element occurs twice. */
  predicate Distinct<T(==)>(s: seq<T>)
  {
    forall i, j :: 0 <= i < j < |s| ==> s[i] != s[j]
  }

  /** `s.index(v)`: the first position holding `v`, if any. */
  function IndexOf<T(==)>(s: seq<T>, v: T): (r: Option<nat>)
    ensures r.Some? <==> v in s
    ensures r.Some? ==> r.value < |s| && s[r.value] == v
    ensures r.Some? ==> forall j :: 0 <= j < r.value ==> s[j] != v
  {
    if |s| == 0 then None
    else if s[0] == v then Some(0)
    else
      var r := IndexOf(s[1..], v);
      if r.Some? then Some(r.value + 1) else None
  }

  /** A view range as plotting reports it: a tuple whose ends may be missing. */
  type ViewRange = seq<Option<real>>

  /** `r and all(v is not None for v in r)`: present, non-empty and fully given. */
  predicate FullyGiven(r: Option<ViewRange>)
  {
    r.Some? && |r.value| > 0 && forall i :: 0 <= i < |r.value| ==> r.value[i].Some?
  }

  function Abs(x: real): (r: real)
    ensures r >= 0.0 && (r == x || r == -x)
  {
    if x < 0.0 then -x else x
  }

  function Min(a: real, b: real): real { if a <= b then a else b }

  function Max(a: real, b: real): real { if a <= b then b else a }

  /** The smallest element of a non-empty sequence (`da.min()`). */
  function SeqMin(s: seq<real>): (m: real)
    requires |s| > 0
    ensures m in s
    ensures forall i :: 0 <= i < |s| ==> m <= s[i]
  {
    if |s| == 1 then s[0]
    else
      var rest := SeqMin(s[1..]);
      assert forall i :: 1 <= i < |s| ==> s[i] == s[1..][i - 1];
      if s[0] <= rest then s[0] else rest
  }

  /** The largest element of a non-empty sequence (`da.max()`). */
  function SeqMax(s: seq<real>): (m: real)
    requires |s| > 0
    ensures m in s
    ensures forall i :: 0 <= i < |s| ==> s[i] <= m
  {
    if |s| == 1 then s[0]
    else
      var rest := SeqMax(s[1..]);
      assert forall i :: 1 <= i < |s| ==> s[i] == s[1..][i - 1];
      if s[0] >= rest then s[0] else rest
  }

  /** A named coordinate of an array and its number of points. */
  datatype Coord = Coord(name: string, size: nat)

  /** A named dimension of an array and its length. */
  datatype Dim = Dim(name: string, size: nat)

  /**
   * A realised data array: its name ("" stands for a missing or empty name), its
   * dimensions in order, its element values in storage order, its string attributes and
   * its coordinates.
   */
  datatype DataArray = DataArray(
    name: string,
    dims: seq<Dim>,
    values: seq<real>,
    attrs: map<string, string>,
    coords: seq<Coord>)

  /** Everything one visualisation frame needs (class FrameRequest). */
  datatype FrameRequest = FrameRequest(
    simPath: string,
    varName: string,
    tRange: Value,
    zRange: Value,
    xRange: Range,
    yRange: Range,
    windEnabled: bool,
    useSurface: bool,
    contourEnabled: bool,
    contourVar: Option<string>)

  /** `FrameRequest.cache_key()`: the 3-tuple `(var_name, t_range, z_range)`. */
  function RequestKey(r: FrameRequest): Value
  {
    VTuple([VStr(r.varName), r.tRange, r.zRange])
  }

  /**
   * The key under which the controller looks up and stores a bundle: the 6-tuple
   * `(var, (t, t), z_range, wind_enabled, contour_enabled, contour_var)`.
   */
  function ControllerKey(
    varName: string, t: Value, zRange: Value,
    windEnabled: bool, contourEnabled: bool, contourVar: Option<string>): Value
  {
    VTuple([VStr(varName), VTuple([t, t]), zRange,
            VBool(windEnabled), VBool(contourEnabled), OptionalStr(contourVar)])
  }

  /** A value that has the shape of a controller key: a tuple of six items. */
  predicate IsControllerShaped(k: Value)
  {
    k.VTuple? && |k.items| == 6
  }

  /**
   * A frame bundle (the dictionary built by `load_frame_bundle`): the ranges and main
   * variable it was built for, and the optional `main`, `wind` and `contour` entries.
   */
  datatype Bundle = Bundle(
    tRange: Value,
    zRange: Value,
    mainVar: string,
    main: Option<DataArray>,
    wind: Option<(DataArray, DataArray)>,
    contour: Option<DataArray>)

  /** The dictionary keys a bundle holds. */
  function BundleKeys(b: Bundle): set<string>
  {
    {"t_range", "z_range", "main_var"}
    + (if b.main.Some? then {"main"} else {})
    + (if b.wind.Some? then {"wind"} else {})
    + (if b.contour.Some? then {"contour"} else {})
  }

  /**
   * Two requests share a cache entry exactly when they agree on variable, time range
   * and vertical range: spatial ranges and every overlay flag are outside the key.
   */
  lemma RequestKeyIdentifies(r1: FrameRequest, r2: FrameRequest)
    ensures RequestKey(r1) == RequestKey(r2)
            <==> r1.varName == r2.varName && r1.tRange == r2.tRange && r1.zRange == r2.zRange
  {
    if RequestKey(r1) == RequestKey(r2) {
      assert RequestKey(r1).items[0] == RequestKey(r2).items[0];
      assert RequestKey(r1).items[1] == RequestKey(r2).items[1];
      assert RequestKey(r1).items[2] == RequestKey(r2).items[2];
    }
  }

  /**
   * The two key shapes never meet: a key built by `FrameRequest.cache_key()` is a
   * 3-tuple, the controller's is a 6-tuple, and tuples of different lengths are unequal.
   */
  lemma RequestKeyIsNeverControllerKey(
    r: FrameRequest, varName: string, t: Value, zRange: Value,
    windEnabled: bool, contourEnabled: bool, contourVar: Option<string>)
    ensures RequestKey(r) != ControllerKey(varName, t, zRange, windEnabled, contourEnabled, contourVar)
    ensures !IsControllerShaped(RequestKey(r))
    ensures IsControllerShaped(ControllerKey(varName, t, zRange, windEnabled, contourEnabled, contourVar))
  {
  }
}
