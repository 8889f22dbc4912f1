/**
 * Metadata formatting (utils/metadata.py): default-filled variable metadata, the
 * numeric time label, the line structure of the metadata panel with its preferred
 * coordinate order, human-readable data sizes and the dataset summary.
 */
module Metadata {
  import opened Wrappers
  import opened Frames
  import opened DataProcessor

  /** The `name`, `long_name` and `units` a panel shows for one array. */
  datatype VariableMeta = VariableMeta(name: string, longName: string, units: string)

  /**
   * `extract_metadata_from_dataarray(da)`: a missing name reads `unknown`, a missing
   * long name falls back to the name, missing units read `N/A`.
   */
  function ExtractMetadata(da: DataArray): (r: VariableMeta)
    ensures |r.name| > 0
    ensures da.name != "" ==> r.name == da.name
    ensures da.name == "" ==> r.name == "unknown"
    ensures r.longName == if "long_name" in da.attrs then da.attrs["long_name"] else r.name
    ensures r.units == if "units" in da.attrs then da.attrs["units"] else "N/A"
  {
    var name := if da.name != "" then da.name else "unknown";
    VariableMeta(
      name,
      if "long_name" in da.attrs then da.attrs["long_name"] else name,
      if "units" in da.attrs then da.attrs["units"] else "N/A")
  }

  /**
   * The numeric branch of `format_time_value`: the value as shown, followed by
   * ` (units)` when units are given.
   */
  function FormatNumericTime(shown: string, units: string): (r: string)
    ensures |units| == 0 ==> r == shown
    ensures |units| > 0 ==> |r| == |shown| + |units| + 3
    ensures r[..|shown|] == shown
    ensures |units| > 0 ==> r[|shown|..|shown| + 2] == " (" && r[|r| - 1] == ')'
  {
    if |units| > 0 then shown + " (" + units + ")" else shown
  }

  /** The units of a labelled time can be read back from the label. */
  lemma NumericTimeUnitsRecoverable(shown: string, units: string)
    requires |units| > 0
    ensures FormatNumericTime(shown, units)[|shown| + 2..|shown| + 2 + |units|] == units
  {
    var r := FormatNumericTime(shown, units);
    assert r == shown + " (" + units + ")";
    assert r[|shown| + 2..|shown| + 2 + |units|] == units;
  }

  /** The coordinates listed first in the panel, in this order. */
  const PREFERRED_ORDER: seq<string> := ["time", "lev", "lat", "lon", "yc", "xc"]

  /** The sort key of every coordinate outside the preferred order. */
  const UNLISTED_RANK: nat := 999

  /** Every sort key the panel's coordinate sort can produce, in increasing order. */
  const RANKS: seq<nat> := [0, 1, 2, 3, 4, 5, UNLISTED_RANK]

  /** The sort key: the position in the preferred order, or 999. */
  function Rank(name: string): nat
  {
    match IndexOf(PREFERRED_ORDER, name)
    case Some(i) => i
    case None => UNLISTED_RANK
  }

  /**
   * A preferred coordinate's key is its position in the preferred order; every other
   * coordinate's key is 999, after all of them.
   */
  lemma RankSpec(name: string)
    ensures Rank(name) in RANKS
    ensures Rank(name) < |PREFERRED_ORDER| <==> name in PREFERRED_ORDER
    ensures Rank(name) < |PREFERRED_ORDER| ==> PREFERRED_ORDER[Rank(name)] == name
    ensures name !in PREFERRED_ORDER ==> Rank(name) == UNLISTED_RANK
  {
  }

  /** The coordinates with sort key `k`, in their original order. */
  function WithRank(cs: seq<Coord>, k: nat): (r: seq<Coord>)
    ensures forall i :: 0 <= i < |r| ==> Rank(r[i].name) == k
  {
    if |cs| == 0 then []
    else WithRank(cs[..|cs| - 1], k) + (if Rank(cs[|cs| - 1].name) == k then [cs[|cs| - 1]] else [])
  }

  /** The blocks of the given sort keys, one after the other. */
  function ConcatRanks(cs: seq<Coord>, ks: seq<nat>): seq<Coord>
  {
    if |ks| == 0 then [] else WithRank(cs, ks[0]) + ConcatRanks(cs, ks[1..])
  }

  /**
   * `sorted(list(da.coords), key=...)`: Python's sort is stable, so it is the block of
   * each key in increasing key order, each block in the original order.
   */
  function SortCoords(cs: seq<Coord>): seq<Coord>
  {
    ConcatRanks(cs, RANKS)
  }

  predicate Increasing(ks: seq<nat>)
  {
    forall i, j :: 0 <= i < j < |ks| ==> ks[i] < ks[j]
  }

  predicate SortedByRank(cs: seq<Coord>)
  {
    forall i, j :: 0 <= i < j < |cs| ==> Rank(cs[i].name) <= Rank(cs[j].name)
  }

  /** No coordinate has a key outside RANKS. */
  lemma WithRankUnlisted(cs: seq<Coord>, k: nat)
    requires k !in RANKS
    ensures WithRank(cs, k) == []
  {
    var r := WithRank(cs, k);
    if |r| > 0 {
      RankSpec(r[0].name);
    }
  }

  /** A block of key `k` followed by a sorted run of larger keys is sorted. */
  lemma SortedBlockThenRest(a: seq<Coord>, b: seq<Coord>, k: nat)
    requires forall i :: 0 <= i < |a| ==> Rank(a[i].name) == k
    requires forall i :: 0 <= i < |b| ==> k < Rank(b[i].name)
    requires SortedByRank(b)
    ensures SortedByRank(a + b)
  {
    var ab := a + b;
    forall i, j | 0 <= i < j < |ab| ensures Rank(ab[i].name) <= Rank(ab[j].name) {
      if j < |a| {
        assert ab[i] == a[i] && ab[j] == a[j];
      } else if i < |a| {
        assert ab[i] == a[i] && ab[j] == b[j - |a|];
      } else {
        assert ab[i] == b[i - |a|] && ab[j] == b[j - |a|];
      }
    }
  }

  lemma {:induction false} ConcatRanksSorted(cs: seq<Coord>, ks: seq<nat>)
    requires Increasing(ks)
    ensures SortedByRank(ConcatRanks(cs, ks))
    ensures forall c :: c in ConcatRanks(cs, ks) ==> Rank(c.name) in ks
    decreases |ks|
  {
    if |ks| > 0 {
      var a := WithRank(cs, ks[0]);
      var b := ConcatRanks(cs, ks[1..]);
      ConcatRanksSorted(cs, ks[1..]);
      forall i | 0 <= i < |b| ensures ks[0] < Rank(b[i].name) {
        assert b[i] in b;
        var j :| 0 <= j < |ks[1..]| && ks[1..][j] == Rank(b[i].name);
      }
      SortedBlockThenRest(a, b, ks[0]);
      forall c | c in a + b ensures Rank(c.name) in ks {
        if c in a {
          var i :| 0 <= i < |a| && a[i] == c;
        }
      }
    }
  }

  lemma {:induction false} WithRankAppend(cs: seq<Coord>, d: seq<Coord>, k: nat)
    ensures WithRank(cs + d, k) == WithRank(cs, k) + WithRank(d, k)
    decreases |d|
  {
    if |d| == 0 {
      assert cs + d == cs;
    } else {
      var front := d[..|d| - 1];
      var last := d[|d| - 1];
      var tail := if Rank(last.name) == k then [last] else [];
      assert (cs + d)[..|cs + d| - 1] == cs + front;
      assert (cs + d)[|cs + d| - 1] == last;
      assert WithRank(cs + d, k) == WithRank(cs + front, k) + tail;
      assert WithRank(d, k) == WithRank(front, k) + tail;
      assert WithRank(cs + front, k) == WithRank(cs, k) + WithRank(front, k) by {
        WithRankAppend(cs, front, k);
      }
    }
  }

  lemma {:induction false} WithRankTwice(cs: seq<Coord>, k: nat, k': nat)
    ensures WithRank(WithRank(cs, k'), k) == if k == k' then WithRank(cs, k) else []
    decreases |cs|
  {
    if |cs| > 0 {
      var front := cs[..|cs| - 1];
      var last := cs[|cs| - 1];
      WithRankTwice(front, k, k');
      WithRankAppend(WithRank(front, k'), if Rank(last.name) == k' then [last] else [], k);
      if Rank(last.name) == k' {
        assert [last][..0] == [];
      }
    }
  }

  lemma {:induction false} ConcatRanksBlock(cs: seq<Coord>, ks: seq<nat>, k: nat)
    requires Increasing(ks)
    ensures WithRank(ConcatRanks(cs, ks), k) == if k in ks then WithRank(cs, k) else []
    decreases |ks|
  {
    if |ks| > 0 {
      WithRankAppend(WithRank(cs, ks[0]), ConcatRanks(cs, ks[1..]), k);
      WithRankTwice(cs, k, ks[0]);
      ConcatRanksBlock(cs, ks[1..], k);
      if k == ks[0] {
        assert k !in ks[1..];
      }
    }
  }

  lemma {:induction false} ConcatRanksStep(cs: seq<Coord>, x: Coord, ks: seq<nat>)
    requires Increasing(ks)
    ensures multiset(ConcatRanks(cs + [x], ks))
            == multiset(ConcatRanks(cs, ks)) + if Rank(x.name) in ks then multiset{x} else multiset{}
    decreases |ks|
  {
    if |ks| > 0 {
      assert (cs + [x])[..|cs|] == cs;
      ConcatRanksStep(cs, x, ks[1..]);
      if Rank(x.name) == ks[0] {
        assert Rank(x.name) !in ks[1..];
      }
    }
  }

  lemma {:induction false} ConcatRanksPermutes(cs: seq<Coord>, ks: seq<nat>)
    requires Increasing(ks)
    requires forall i :: 0 <= i < |cs| ==> Rank(cs[i].name) in ks
    ensures multiset(ConcatRanks(cs, ks)) == multiset(cs)
    decreases |cs|
  {
    if |cs| > 0 {
      var front := cs[..|cs| - 1];
      assert front + [cs[|cs| - 1]] == cs;
      ConcatRanksPermutes(front, ks);
      PermutesOneMore(front, cs[|cs| - 1], ks);
    } else {
      ConcatRanksOfNone(cs, ks);
    }
  }

  /** The permutation property extends by one coordinate whose key is listed. */
  lemma PermutesOneMore(cs: seq<Coord>, x: Coord, ks: seq<nat>)
    requires Increasing(ks) && Rank(x.name) in ks
    requires multiset(ConcatRanks(cs, ks)) == multiset(cs)
    ensures multiset(ConcatRanks(cs + [x], ks)) == multiset(cs + [x])
  {
    ConcatRanksStep(cs, x, ks);
    assert multiset(cs + [x]) == multiset(cs) + multiset{x};
  }

  lemma {:induction false} ConcatRanksOfNone(cs: seq<Coord>, ks: seq<nat>)
    requires |cs| == 0
    ensures ConcatRanks(cs, ks) == []
    decreases |ks|
  {
    if |ks| > 0 {
      ConcatRanksOfNone(cs, ks[1..]);
    }
  }

  /**
   * The panel's coordinate order is the stable sort by preferred position: a
   * permutation, ordered by key, and the coordinates of each key keep their order.
   */
  lemma SortCoordsIsStableSort(cs: seq<Coord>)
    ensures multiset(SortCoords(cs)) == multiset(cs)
    ensures SortedByRank(SortCoords(cs))
    ensures forall k :: WithRank(SortCoords(cs), k) == WithRank(cs, k)
  {
    forall i | 0 <= i < |cs| ensures Rank(cs[i].name) in RANKS {
      RankSpec(cs[i].name);
    }
    ConcatRanksPermutes(cs, RANKS);
    ConcatRanksSorted(cs, RANKS);
    forall k ensures WithRank(SortCoords(cs), k) == WithRank(cs, k) {
      ConcatRanksBlock(cs, RANKS, k);
      if k !in RANKS {
        WithRankUnlisted(cs, k);
      }
    }
  }

  /** A line of the metadata panel, with the facts it shows. */
  datatype MetaLine =
    | Heading(title: string)
    | VariableLine(name: string)
    | LongNameLine(longName: string)
    | UnitsLine(units: string)
    | DimensionsLine(dims: seq<Dim>)
    | DataRangeLine(lo: real, hi: real)
    | Rule
    | CoordValueLine(coord: string)
    | CoordRangeLine(coord: string)

  /** Arrays at least this large get no data-range line. */
  const DATA_RANGE_LIMIT: nat := 1000000

  function VariableSection(m: VariableMeta): seq<MetaLine>
  {
    [VariableLine(m.name), LongNameLine(m.longName), UnitsLine(m.units)]
  }

  /**
   * The lines before the coordinate list: the main variable, its dimensions, the data
   * range when the array is non-empty and small (`min()` of an empty array raises and
   * the line is skipped), the contour section, and the coordinates heading.
   */
  function Preamble(da: DataArray, contour: Option<DataArray>): seq<MetaLine>
  {
    [Heading("Variable Metadata")] + VariableSection(ExtractMetadata(da)) + [DimensionsLine(da.dims)]
    + (if 0 < |da.values| < DATA_RANGE_LIMIT then [DataRangeLine(SeqMin(da.values), SeqMax(da.values))] else [])
    + (if contour.Some? then [Heading("Contour Overlay")] + VariableSection(ExtractMetadata(contour.value)) else [])
    + [Rule, Heading("Coordinates")]
  }

  predicate IsCoordLine(l: MetaLine)
  {
    l.CoordValueLine? || l.CoordRangeLine?
  }

  /** One line per non-empty coordinate: its value when it has one point, else its range. */
  function CoordLines(cs: seq<Coord>): (r: seq<MetaLine>)
    ensures forall i :: 0 <= i < |r| ==> IsCoordLine(r[i])
  {
    if |cs| == 0 then []
    else
      var c := cs[|cs| - 1];
      CoordLines(cs[..|cs| - 1])
      + if c.size == 0 then [] else if c.size == 1 then [CoordValueLine(c.name)] else [CoordRangeLine(c.name)]
  }

  function MetadataLines(da: DataArray, contour: Option<DataArray>): seq<MetaLine>
  {
    Preamble(da, contour) + CoordLines(SortCoords(da.coords))
  }

  /** `build_metadata_markdown(da, contour_da)`, as the sequence of lines it joins. */
  method BuildMetadataMarkdown(da: DataArray, contour: Option<DataArray>) returns (lines: seq<MetaLine>)
    ensures lines == MetadataLines(da, contour)
  {
    lines := [Heading("Variable Metadata")] + VariableSection(ExtractMetadata(da));
    lines := lines + [DimensionsLine(da.dims)];
    if 0 < |da.values| < DATA_RANGE_LIMIT {
      lines := lines + [DataRangeLine(SeqMin(da.values), SeqMax(da.values))];
    }
    if contour.Some? {
      lines := lines + [Heading("Contour Overlay")] + VariableSection(ExtractMetadata(contour.value));
    }
    lines := lines + [Rule, Heading("Coordinates")];
    assert lines == Preamble(da, contour);
    var listed := CoordinateLines(SortCoords(da.coords));
    lines := lines + listed;
  }

  /** The coordinate loop of `build_metadata_markdown`, over the sorted coordinates. */
  method CoordinateLines(sorted: seq<Coord>) returns (lines: seq<MetaLine>)
    ensures lines == CoordLines(sorted)
  {
    lines := [];
    for i := 0 to |sorted|
      invariant lines == CoordLines(sorted[..i])
    {
      var c := sorted[i];
      assert sorted[..i + 1][..i] == sorted[..i];
      if c.size == 1 {
        lines := lines + [CoordValueLine(c.name)];
      } else if c.size > 0 {
        lines := lines + [CoordRangeLine(c.name)];
      }
    }
    assert sorted[..|sorted|] == sorted;
  }

  lemma PreambleShape(da: DataArray, contour: Option<DataArray>)
    ensures Heading("Contour Overlay") in Preamble(da, contour) <==> contour.Some?
    ensures (exists i :: 0 <= i < |Preamble(da, contour)| && Preamble(da, contour)[i].DataRangeLine?)
            <==> 0 < |da.values| < DATA_RANGE_LIMIT
  {
    var p := Preamble(da, contour);
    if 0 < |da.values| < DATA_RANGE_LIMIT {
      assert p[5].DataRangeLine?;
    }
    if contour.Some? {
      assert p[|p| - 6] == Heading("Contour Overlay");
    }
  }

  /** The panel has a contour section exactly when a contour array is given. */
  lemma MetadataContourSection(da: DataArray, contour: Option<DataArray>)
    ensures Heading("Contour Overlay") in MetadataLines(da, contour) <==> contour.Some?
  {
    var p := Preamble(da, contour);
    var c := CoordLines(SortCoords(da.coords));
    assert MetadataLines(da, contour) == p + c;
    PreambleShape(da, contour);
    forall j | 0 <= j < |c| ensures c[j] != Heading("Contour Overlay") {
      assert IsCoordLine(c[j]);
    }
    assert Heading("Contour Overlay") !in c;
  }

  /** The panel has a data range line exactly when the array has between 1 and 999999 elements. */
  lemma MetadataDataRange(da: DataArray, contour: Option<DataArray>)
    ensures (exists i :: 0 <= i < |MetadataLines(da, contour)| && MetadataLines(da, contour)[i].DataRangeLine?)
            <==> 0 < |da.values| < DATA_RANGE_LIMIT
  {
    var p := Preamble(da, contour);
    var c := CoordLines(SortCoords(da.coords));
    var all := MetadataLines(da, contour);
    assert all == p + c;
    PreambleShape(da, contour);
    forall j | 0 <= j < |c| ensures !c[j].DataRangeLine? {
      assert IsCoordLine(c[j]);
    }
    forall i | 0 <= i < |all| && all[i].DataRangeLine? ensures i < |p| && all[i] == p[i] {
    }
    if 0 < |da.values| < DATA_RANGE_LIMIT {
      assert all[5] == p[5];
    }
  }

  /** The data range shown is the least and the greatest element of the array. */
  lemma DataRangeBounds(da: DataArray, contour: Option<DataArray>)
    requires 0 < |da.values| < DATA_RANGE_LIMIT
    ensures MetadataLines(da, contour)[5] == DataRangeLine(SeqMin(da.values), SeqMax(da.values))
    ensures SeqMin(da.values) <= SeqMax(da.values)
  {
  }

  /** The names of the coordinates the lines list, in order. */
  function ListedCoords(ls: seq<MetaLine>): seq<string>
  {
    if |ls| == 0 then []
    else ListedCoords(ls[..|ls| - 1]) + if IsCoordLine(ls[|ls| - 1]) then [ls[|ls| - 1].coord] else []
  }

  /** The names of the non-empty coordinates, in order. */
  function NonEmptyNames(cs: seq<Coord>): seq<string>
  {
    if |cs| == 0 then []
    else NonEmptyNames(cs[..|cs| - 1]) + if cs[|cs| - 1].size > 0 then [cs[|cs| - 1].name] else []
  }

  /** The coordinate lines list exactly the non-empty coordinates, each once, in order. */
  lemma {:induction false} CoordLinesListNonEmpty(cs: seq<Coord>)
    ensures ListedCoords(CoordLines(cs)) == NonEmptyNames(cs)
    decreases |cs|
  {
    if |cs| > 0 {
      var front := CoordLines(cs[..|cs| - 1]);
      var c := cs[|cs| - 1];
      CoordLinesListNonEmpty(cs[..|cs| - 1]);
      if c.size > 0 {
        var l := if c.size == 1 then CoordValueLine(c.name) else CoordRangeLine(c.name);
        assert CoordLines(cs) == front + [l];
        assert (front + [l])[..|front|] == front;
      } else {
        assert CoordLines(cs) == front;
      }
    }
  }

  /** The human-readable size units, smallest first. */
  const SIZE_UNITS: seq<string> := ["B", "KB", "MB", "GB", "TB", "PB"]

  function Pow1024(k: nat): (r: real)
    ensures r >= 1.0
  {
    if k == 0 then 1.0 else 1024.0 * Pow1024(k - 1)
  }

  lemma {:induction false} Pow1024Increasing(j: nat, k: nat)
    requires j < k
    ensures Pow1024(j + 1) <= Pow1024(k)
    decreases k - j
  {
    if j + 1 < k {
      Pow1024Increasing(j, k - 1);
    }
  }

  /** The size, counted in unit `k`, is below 1024 (or `k` is the last unit) and `k` is the first such unit. */
  predicate UnitFits(sizeBytes: real, k: nat)
  {
    k < |SIZE_UNITS|
    && (k < |SIZE_UNITS| - 1 ==> sizeBytes < Pow1024(k + 1))
    && (k > 0 ==> sizeBytes >= Pow1024(k))
  }

  /** At most one unit fits a size, so the unit `format_data_size` picks is determined. */
  lemma UnitFitsUnique(sizeBytes: real, j: nat, k: nat)
    requires UnitFits(sizeBytes, j) && UnitFits(sizeBytes, k)
    ensures j == k
  {
    if j < k {
      Pow1024Increasing(j, k);
    } else if k < j {
      Pow1024Increasing(k, j);
    }
  }

  /**
   * `format_data_size(size_bytes)`: the value divided by 1024 once per unit passed, and
   * the first unit in which it is below 1024, with PB as the last resort.
   */
  method FormatDataSize(sizeBytes: real) returns (value: real, unit: string)
    ensures exists k: nat :: UnitFits(sizeBytes, k) && unit == SIZE_UNITS[k] && value * Pow1024(k) == sizeBytes
  {
    value := sizeBytes;
    for k := 0 to |SIZE_UNITS| - 1
      invariant value * Pow1024(k) == sizeBytes
      invariant k > 0 ==> sizeBytes >= Pow1024(k)
    {
      if value < 1024.0 {
        unit := SIZE_UNITS[k];
        FitsHere(sizeBytes, value, k);
        return;
      }
      NextUnit(sizeBytes, value, k);
      value := value / 1024.0;
    }
    unit := "PB";
    assert UnitFits(sizeBytes, |SIZE_UNITS| - 1);
  }

  /** A value below 1024 in unit `k` means unit `k` fits. */
  lemma FitsHere(sizeBytes: real, value: real, k: nat)
    requires k < |SIZE_UNITS| && value * Pow1024(k) == sizeBytes && value < 1024.0
    requires k > 0 ==> sizeBytes >= Pow1024(k)
    ensures UnitFits(sizeBytes, k)
  {
    var p := Pow1024(k);
    assert Pow1024(k + 1) == 1024.0 * p;
    assert value * p < 1024.0 * p;
  }

  /** A value of at least 1024 in unit `k` is the value divided by 1024 in unit `k + 1`. */
  lemma NextUnit(sizeBytes: real, value: real, k: nat)
    requires value * Pow1024(k) == sizeBytes && value >= 1024.0
    ensures (value / 1024.0) * Pow1024(k + 1) == sizeBytes
    ensures sizeBytes >= Pow1024(k + 1)
  {
    var p := Pow1024(k);
    assert Pow1024(k + 1) == 1024.0 * p;
    assert (value / 1024.0) * (1024.0 * p) == value * p;
    assert value * p >= 1024.0 * p;
  }

  /** One line of a dataset summary. */
  datatype SummaryLine = CountHeader(count: nat) | ShapeLine(name: string, shape: seq<nat>)

  /** The shape of an array: its dimension lengths, in order. */
  function Shape(dims: seq<Dim>): (r: seq<nat>)
    ensures |r| == |dims|
    ensures forall i :: 0 <= i < |dims| ==> r[i] == dims[i].size
  {
    seq(|dims|, i requires 0 <= i < |dims| => dims[i].size)
  }

  /** `summarize_dataset(ds)`: the variable count, then each variable's name and shape in order. */
  method SummarizeDataset(ds: Dataset) returns (lines: seq<SummaryLine>)
    ensures |lines| == |ds.dataVars| + 1
    ensures lines[0] == CountHeader(|ds.dataVars|)
    ensures forall i :: 0 <= i < |ds.dataVars| ==>
      lines[i + 1] == ShapeLine(ds.dataVars[i].name, Shape(ds.dataVars[i].dims))
  {
    lines := [CountHeader(|ds.dataVars|)];
    for i := 0 to |ds.dataVars|
      invariant |lines| == i + 1
      invariant lines[0] == CountHeader(|ds.dataVars|)
      invariant forall j :: 0 <= j < i ==> lines[j + 1] == ShapeLine(ds.dataVars[j].name, Shape(ds.dataVars[j].dims))
    {
      var v := ds.dataVars[i];
      lines := lines + [ShapeLine(v.name, Shape(v.dims))];
    }
  }
}
