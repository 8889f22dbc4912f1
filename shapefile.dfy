/**
 * Boundary shapefiles (utils/shapefile.py): polygon records are cut into their parts,
 * parts of fewer than three points are dropped, and the rest are packed into one buffer
 * with a separator row after each part; and the companion-file check of a shapefile.
 */
module Shapefile {
  import opened Wrappers

  type Point = (real, real)

  /** A shape record: its ESRI shape type, its points and the start index of each part. */
  datatype Shape = Shape(shapeType: int, points: seq<Point>, parts: seq<int>)

  /** Polygon, PolygonZ and PolygonM in the ESRI shape-type table. */
  predicate IsPolygonType(t: int)
  {
    t == 5 || t == 15 || t == 25
  }

  /** Python's normalisation of a slice bound: negative counts from the end, then clamped. */
  function SliceBound(i: int, n: nat): (r: nat)
    ensures r <= n
    ensures 0 <= i <= n ==> r == i
    ensures i < 0 && i + n >= 0 ==> r == i + n
  {
    if i < 0 then (if i + n < 0 then 0 else i + n) else if i > n then n else i
  }

  /** `s[start:end]` with Python's slice semantics. */
  function PySlice<T>(s: seq<T>, start: int, end: int): (r: seq<T>)
    ensures 0 <= start <= end <= |s| ==> r == s[start..end]
    ensures exists a, b :: 0 <= a <= b <= |s| && r == s[a..b]
  {
    var a := SliceBound(start, |s|);
    var b := SliceBound(end, |s|);
    if a < b then s[a..b] else s[a..a]
  }

  /** The `i`-th slice between consecutive cut points. */
  function Piece(points: seq<Point>, cuts: seq<int>, i: nat): seq<Point>
    requires i + 1 < |cuts|
  {
    PySlice(points, cuts[i], cuts[i + 1])
  }

  /** The slices between the first `k + 1` cut points that hold at least three points. */
  function KeptPieces(points: seq<Point>, cuts: seq<int>, k: nat): (r: seq<seq<Point>>)
    requires k < |cuts|
    ensures forall j :: 0 <= j < |r| ==> |r[j]| >= 3
  {
    if k == 0 then []
    else
      var piece := Piece(points, cuts, k - 1);
      KeptPieces(points, cuts, k - 1) + (if |piece| >= 3 then [piece] else [])
  }

  /** The cut points of a shape: its part starts followed by its point count. */
  function Cuts(s: Shape): seq<int>
  {
    s.parts + [|s.points|]
  }

  /** The polygons a shape contributes: its kept parts if it is a polygon, none otherwise. */
  function ShapeSegments(s: Shape): seq<seq<Point>>
  {
    if IsPolygonType(s.shapeType) then KeptPieces(s.points, Cuts(s), |Cuts(s)| - 1) else []
  }

  /** The polygons of all records, in record order. */
  function AllSegments(shapes: seq<Shape>): seq<seq<Point>>
  {
    if |shapes| == 0 then []
    else AllSegments(shapes[..|shapes| - 1]) + ShapeSegments(shapes[|shapes| - 1])
  }

  /** A kept piece has at least three points and is a contiguous run of its shape's points. */
  predicate SegmentOf(seg: seq<Point>, s: Shape)
  {
    |seg| >= 3 && IsPolygonType(s.shapeType)
    && exists a, b :: 0 <= a <= b <= |s.points| && seg == s.points[a..b]
  }

  lemma {:induction false} KeptPiecesAreRuns(points: seq<Point>, cuts: seq<int>, k: nat)
    requires k < |cuts|
    ensures forall seg :: seg in KeptPieces(points, cuts, k) ==>
      exists a, b :: 0 <= a <= b <= |points| && seg == points[a..b]
  {
    if k > 0 {
      KeptPiecesAreRuns(points, cuts, k - 1);
    }
  }

  /**
   * Every segment has at least three points and is a contiguous run of the points of a
   * polygon record: other shape types contribute nothing.
   */
  lemma {:induction false} SegmentsComeFromPolygons(shapes: seq<Shape>)
    ensures forall seg :: seg in AllSegments(shapes) ==>
      exists m :: 0 <= m < |shapes| && SegmentOf(seg, shapes[m])
  {
    if |shapes| > 0 {
      var front := shapes[..|shapes| - 1];
      var last := shapes[|shapes| - 1];
      SegmentsComeFromPolygons(front);
      forall seg | seg in AllSegments(shapes)
        ensures exists m :: 0 <= m < |shapes| && SegmentOf(seg, shapes[m])
      {
        if seg in AllSegments(front) {
          var m :| 0 <= m < |front| && SegmentOf(seg, front[m]);
          assert shapes[m] == front[m];
        } else {
          assert seg in ShapeSegments(last);
          KeptPiecesAreRuns(last.points, Cuts(last), |Cuts(last)| - 1);
          var j :| 0 <= j < |ShapeSegments(last)| && ShapeSegments(last)[j] == seg;
          assert SegmentOf(seg, shapes[|shapes| - 1]);
        }
      }
    }
  }

  /** Cut points that run upwards from 0 to the point count. */
  predicate Partition(points: seq<Point>, cuts: seq<int>)
  {
    |cuts| > 0 && cuts[0] == 0 && cuts[|cuts| - 1] == |points|
    && forall i, j :: 0 <= i <= j < |cuts| ==> 0 <= cuts[i] <= cuts[j] <= |points|
  }

  /** All slices between the first `k + 1` cut points, kept or not. */
  function AllPieces(points: seq<Point>, cuts: seq<int>, k: nat): seq<seq<Point>>
    requires k < |cuts|
  {
    if k == 0 then [] else AllPieces(points, cuts, k - 1) + [Piece(points, cuts, k - 1)]
  }

  function Concat(ss: seq<seq<Point>>): seq<Point>
  {
    if |ss| == 0 then [] else Concat(ss[..|ss| - 1]) + ss[|ss| - 1]
  }

  /** With well-formed part starts, the slices cut the points into consecutive pieces. */
  lemma {:induction false} PiecesCoverPoints(points: seq<Point>, cuts: seq<int>, k: nat)
    requires Partition(points, cuts) && k < |cuts|
    ensures Concat(AllPieces(points, cuts, k)) == points[..cuts[k]]
  {
    if k > 0 {
      PiecesCoverPoints(points, cuts, k - 1);
      var ps := AllPieces(points, cuts, k);
      assert ps[..|ps| - 1] == AllPieces(points, cuts, k - 1);
      assert points[..cuts[k]] == points[..cuts[k - 1]] + points[cuts[k - 1]..cuts[k]];
    }
  }

  /** The inner loop of `load_boundary_paths` over one record's parts. */
  method ShapeParts(shape: Shape) returns (kept: seq<seq<Point>>)
    ensures kept == ShapeSegments(shape)
  {
    kept := [];
    if IsPolygonType(shape.shapeType) {
      var cuts := shape.parts + [|shape.points|];
      var i := 0;
      while i < |cuts| - 1
        invariant 0 <= i <= |cuts| - 1
        invariant kept == KeptPieces(shape.points, cuts, i)
      {
        var piece := PySlice(shape.points, cuts[i], cuts[i + 1]);
        if |piece| >= 3 {
          kept := kept + [piece];
        }
        i := i + 1;
      }
    }
  }

  /**
   * The part-splitting loops of `load_boundary_paths`: for each polygon record, the
   * slices between consecutive cut points, those of at least three points, in order.
   */
  method CollectSegments(shapes: seq<Shape>) returns (segs: seq<seq<Point>>)
    ensures segs == AllSegments(shapes)
  {
    segs := [];
    var m := 0;
    while m < |shapes|
      invariant 0 <= m <= |shapes|
      invariant segs == AllSegments(shapes[..m])
    {
      var kept := ShapeParts(shapes[m]);
      segs := segs + kept;
      assert shapes[..m + 1][..m] == shapes[..m];
      m := m + 1;
    }
    assert shapes[..m] == shapes;
  }

  /** The buffer rows of one segment: its points. */
  function Rows(seg: seq<Point>): (r: seq<Option<Point>>)
    ensures |r| == |seg|
    ensures forall i :: 0 <= i < |seg| ==> r[i] == Some(seg[i])
  {
    if |seg| == 0 then [] else Rows(seg[..|seg| - 1]) + [Some(seg[|seg| - 1])]
  }

  /** The merged buffer: each segment's rows followed by one separator (NaN) row. */
  function Packed(segs: seq<seq<Point>>): seq<Option<Point>>
  {
    if |segs| == 0 then [] else Packed(segs[..|segs| - 1]) + Rows(segs[|segs| - 1]) + [None]
  }

  /** `sum(len(seg) for seg in path_segments)` */
  function TotalPoints(segs: seq<seq<Point>>): nat
  {
    if |segs| == 0 then 0 else TotalPoints(segs[..|segs| - 1]) + |segs[|segs| - 1]|
  }

  /** The buffer has one row per point plus one per segment. */
  lemma {:induction false} PackedLength(segs: seq<seq<Point>>)
    ensures |Packed(segs)| == TotalPoints(segs) + |segs|
  {
    if |segs| > 0 {
      PackedLength(segs[..|segs| - 1]);
    }
  }

  /** The rows of the first `k` segments are the beginning of the buffer. */
  lemma {:induction false} PackedPrefix(segs: seq<seq<Point>>, k: nat)
    requires k <= |segs|
    ensures Packed(segs[..k]) <= Packed(segs)
    decreases |segs| - k
  {
    if k < |segs| {
      PackedPrefix(segs, k + 1);
      assert segs[..k + 1][..k] == segs[..k];
    } else {
      assert segs[..k] == segs;
    }
  }

  /**
   * Segment `k` starts at row `Σ_{j<k} (len_j + 1)`, its points fill the next rows, and the
   * row after them is a separator.
   */
  lemma PackedLayout(segs: seq<seq<Point>>, k: nat)
    requires k < |segs|
    ensures var off := TotalPoints(segs[..k]) + k;
      && off + |segs[k]| < |Packed(segs)|
      && (forall i :: 0 <= i < |segs[k]| ==> Packed(segs)[off + i] == Some(segs[k][i]))
      && Packed(segs)[off + |segs[k]|] == None
  {
    PackedLength(segs[..k]);
    PackedPrefix(segs, k + 1);
    var p := Packed(segs[..k + 1]);
    assert segs[..k + 1][..k] == segs[..k];
    assert p == Packed(segs[..k]) + Rows(segs[k]) + [None];
  }

  /** `n` separator (NaN) rows. */
  function Separators(n: nat): (r: seq<Option<Point>>)
    ensures |r| == n && forall i :: 0 <= i < n ==> r[i].None?
  {
    seq(n, _ => None)
  }

  /** `a[at:at + len(seg)] = seg`: the segment's rows overwrite that stretch, nothing else. */
  method CopyInto(a: array<Option<Point>>, at: nat, seg: seq<Point>)
    requires at + |seg| <= a.Length
    modifies a
    ensures a[..] == old(a[..])[..at] + Rows(seg) + old(a[..])[at + |seg|..]
  {
    forall i | 0 <= i < |seg| {
      a[at + i] := Some(seg[i]);
    }
    ghost var r := old(a[..])[..at] + Rows(seg) + old(a[..])[at + |seg|..];
    forall j | 0 <= j < a.Length ensures a[j] == r[j] {
      if j < at {
      } else if j < at + |seg| {
        assert r[j] == Rows(seg)[j - at];
      } else {
      }
    }
    assert a[..] == r;
  }

  /**
   * The merge step of `load_boundary_paths`: a buffer of separator rows, long enough for
   * every point and one separator per segment, with each segment copied in at a running
   * offset that skips one row after it.
   */
  method MergeSegments(segs: seq<seq<Point>>) returns (merged: array<Option<Point>>)
    ensures fresh(merged)
    ensures merged.Length == TotalPoints(segs) + |segs|
    ensures merged[..] == Packed(segs)
  {
    PackedLength(segs);
    merged := new Option<Point>[TotalPoints(segs) + |segs|](_ => None);
    var current := 0;
    var k := 0;
    assert merged[..] == Packed(segs[..0]) + Separators(merged.Length);
    while k < |segs|
      invariant 0 <= k <= |segs|
      invariant current == |Packed(segs[..k])| <= merged.Length
      invariant merged[..] == Packed(segs[..k]) + Separators(merged.Length - current)
    {
      var seg := segs[k];
      var n := |seg|;
      PackedPrefix(segs, k + 1);
      assert segs[..k + 1][..k] == segs[..k];
      assert Packed(segs[..k + 1]) == Packed(segs[..k]) + Rows(seg) + [None];
      ghost var rest := merged.Length - current - n - 1;
      CopyInto(merged, current, seg);
      assert merged[..] == Packed(segs[..k + 1]) + Separators(rest);
      current := current + n + 1;
      k := k + 1;
    }
    assert segs[..k] == segs;
  }

  /** The outcome of `load_boundary_paths`. */
  datatype BoundaryPaths =
    | FileNotFound              // the `.shp` file does not exist
    | ReadFailed                // the reader raised; re-raised as RuntimeError
    | EmptyPath                 // no polygon part of three or more points
    | MergedPath(rows: seq<Option<Point>>)

  /**
   * `load_boundary_paths(shp_path, ...)` given whether the file exists and what reading
   * its records gives.
   */
  method LoadBoundaryPaths(fileExists: bool, records: Outcome<seq<Shape>>) returns (r: BoundaryPaths)
    ensures !fileExists ==> r == FileNotFound
    ensures fileExists && records.Raises? ==> r == ReadFailed
    ensures fileExists && records.Returns? ==>
      (r == EmptyPath <==> |AllSegments(records.value)| == 0)
    ensures fileExists && records.Returns? && |AllSegments(records.value)| > 0 ==>
      r == MergedPath(Packed(AllSegments(records.value)))
  {
    if !fileExists {
      return FileNotFound;
    }
    if records.Raises? {
      return ReadFailed;
    }
    var segs := CollectSegments(records.value);
    if |segs| == 0 {
      return EmptyPath;
    }
    var merged := MergeSegments(segs);
    r := MergedPath(merged[..]);
  }

  /** The companion files a shapefile needs, in the order they are checked. */
  const REQUIRED_EXTS: seq<string> := [".shp", ".shx", ".dbf"]

  /** The extensions, in order, whose file is missing. */
  function Missing(exts: seq<string>, exists_: string -> bool): (r: seq<string>)
    ensures forall e :: e in r <==> e in exts && !exists_(e)
    ensures |r| <= |exts|
  {
    if |exts| == 0 then []
    else Missing(exts[..|exts| - 1], exists_) + (if exists_(exts[|exts| - 1]) then [] else [exts[|exts| - 1]])
  }

  /** The verdict of `validate_shapefile`, without its message text. */
  datatype Validation =
    | ShapefileMissing
    | MissingCompanions(exts: seq<string>)
    | Unreadable
    | ValidShapefile(shapeCount: nat)

  /**
   * `validate_shapefile(shp_path)`: missing `.shp` first; then the missing companions in
   * the order `.shp`, `.shx`, `.dbf`; then whether the reader can count the shapes.
   */
  method ValidateShapefile(shpExists: bool, companionExists: string -> bool, shapeCount: Outcome<nat>)
    returns (r: Validation)
    ensures !shpExists ==> r == ShapefileMissing
    ensures shpExists && |Missing(REQUIRED_EXTS, companionExists)| > 0 ==>
      r == MissingCompanions(Missing(REQUIRED_EXTS, companionExists))
    ensures r.ValidShapefile? <==>
      shpExists && (forall e :: e in REQUIRED_EXTS ==> companionExists(e)) && shapeCount.Returns?
    ensures r.ValidShapefile? ==> r.shapeCount == shapeCount.value
  {
    if !shpExists {
      return ShapefileMissing;
    }
    var missing: seq<string> := [];
    var i := 0;
    while i < |REQUIRED_EXTS|
      invariant 0 <= i <= |REQUIRED_EXTS|
      invariant missing == Missing(REQUIRED_EXTS[..i], companionExists)
    {
      assert REQUIRED_EXTS[..i + 1][..i] == REQUIRED_EXTS[..i];
      if !companionExists(REQUIRED_EXTS[i]) {
        missing := missing + [REQUIRED_EXTS[i]];
      }
      i := i + 1;
    }
    assert REQUIRED_EXTS[..i] == REQUIRED_EXTS;
    if |missing| > 0 {
      return MissingCompanions(missing);
    }
    if shapeCount.Raises? {
      return Unreadable;
    }
    r := ValidShapefile(shapeCount.value);
  }
}
