/**
 * The data-access layer (core/data_loader.py): decoding of the tagged time and height
 * selectors, discovery of time indices and variable groups from file names, the
 * per-simulation terrain memo table, and the simulation listing fallbacks.
 *
 * File-system listings, dataset readers and the terrain loader are parameters: the model
 * receives what `glob`, `xarray` and the VVM reader would have produced.
 */
module DataLoader {
  import opened Wrappers
  import opened Frames
  import opened Arith

  /** Name under which terrain height is offered and returned. */
  const TERRAIN_VAR_NAME: string := "terrain_height"

  // ---------------------------------------------------------------------------
  // Selector decoding
  // ---------------------------------------------------------------------------

  /** The reader's time selection: by time values or by time indices. */
  datatype TimeSelection = TimeRange(bounds: seq<Value>) | TimeIndexRange(bounds: seq<Value>)

  /** The reader's vertical selection: by level indices or by heights. */
  datatype VerticalSelection = IndexRange(bounds: seq<Value>) | HeightRange(bounds: seq<Value>)

  /** The tuple starts with a mode string and has two bounds after it. */
  predicate Tagged(t: seq<Value>, mode: string)
  {
    |t| == 3 && t[0] == VStr(mode)
  }

  /**
   * `_create_time_selection(t_range)`: `('time', a, b)` selects by time, `('index', a, b)`
   * by index, and any other tuple is a plain index range.
   */
  function CreateTimeSelection(t: seq<Value>): (r: TimeSelection)
    ensures r.TimeRange? <==> Tagged(t, "time")
    ensures Tagged(t, "time") || Tagged(t, "index") ==> r.bounds == t[1..]
    ensures !Tagged(t, "time") && !Tagged(t, "index") ==> r == TimeIndexRange(t)
  {
    if |t| == 3 && t[0].VStr? then
      if t[0].s == "time" then TimeRange(t[1..])
      else if t[0].s == "index" then TimeIndexRange(t[1..])
      else TimeIndexRange(t)
    else TimeIndexRange(t)
  }

  /**
   * `_create_vertical_selection(z_range)`: `None` selects nothing (2-D variables),
   * `('index', a, b)` selects levels, `('height', a, b)` heights, and any other tuple is a
   * plain height range. The selector is `None` or a tuple.
   */
  function CreateVerticalSelection(z: Value): (r: Option<VerticalSelection>)
    requires z.VNone? || z.VTuple?
    ensures r.None? <==> z.VNone?
    ensures r.Some? ==> (r.value.IndexRange? <==> Tagged(z.items, "index"))
    ensures r.Some? && (Tagged(z.items, "index") || Tagged(z.items, "height")) ==> r.value.bounds == z.items[1..]
    ensures r.Some? && !Tagged(z.items, "index") && !Tagged(z.items, "height") ==> r.value == HeightRange(z.items)
  {
    if z.VNone? then None
    else
      var t := z.items;
      if |t| == 3 && t[0].VStr? then
        if t[0].s == "index" then Some(IndexRange(t[1..]))
        else if t[0].s == "height" then Some(HeightRange(t[1..]))
        else Some(HeightRange(t))
      else Some(HeightRange(t))
  }

  /** A plain pair selects by index in time and by height vertically. */
  lemma PlainPairDefaults(a: Value, b: Value)
    requires !a.VStr?
    ensures CreateTimeSelection([a, b]) == TimeIndexRange([a, b])
    ensures CreateVerticalSelection(VTuple([a, b])) == Some(HeightRange([a, b]))
    ensures CreateTimeSelection([VStr("time"), a, b]) == TimeRange([a, b])
    ensures CreateVerticalSelection(VTuple([VStr("index"), a, b])) == Some(IndexRange([a, b]))
  {
    assert [VStr("time"), a, b][1..] == [a, b];
    assert [VStr("index"), a, b][1..] == [a, b];
  }

  // ---------------------------------------------------------------------------
  // Time indices from file names
  // ---------------------------------------------------------------------------

  predicate IsDigit(c: char)
  {
    '0' <= c <= '9'
  }

  predicate AllDigits(s: string)
  {
    forall i :: 0 <= i < |s| ==> IsDigit(s[i])
  }

  /** The number a run of decimal digits spells, most significant first (`int(...)`). */
  function DigitsValue(s: string): nat
    requires AllDigits(s)
  {
    if |s| == 0 then 0 else DigitsValue(s[..|s| - 1]) * 10 + (s[|s| - 1] - '0') as nat
  }

  function Pow10(n: nat): (r: nat)
    ensures r > 0
  {
    if n == 0 then 1 else 10 * Pow10(n - 1)
  }

  /** `n` written with exactly `width` decimal digits, zero-padded, as in `%06d`. */
  function Padded(n: nat, width: nat): (r: string)
    ensures |r| == width && AllDigits(r)
  {
    if width == 0 then [] else Padded(n / 10, width - 1) + [('0' as int + n % 10) as char]
  }

  /** Fewer than `n` digits bound the value. */
  lemma {:induction false} DigitsValueBound(s: string)
    requires AllDigits(s)
    ensures DigitsValue(s) < Pow10(|s|)
  {
    if |s| > 0 {
      DigitsValueBound(s[..|s| - 1]);
    }
  }

  /** Reading a zero-padded number back gives it modulo the width's power of ten. */
  lemma {:induction false} PaddedRoundTrip(n: nat, width: nat)
    ensures DigitsValue(Padded(n, width)) == n % Pow10(width)
  {
    if width > 0 {
      var p := Padded(n, width);
      assert p[..width - 1] == Padded(n / 10, width - 1);
      PaddedRoundTrip(n / 10, width - 1);
      var q := Pow10(width - 1);
      assert DigitsValue(p) == (n / 10) % q * 10 + n % 10;
      ModTimesTen(n, q);
    }
  }

  /** Arithmetic step of PaddedRoundTrip: `((n / 10) % q) * 10 + n % 10 == n % (10 * q)`. */
  lemma ModTimesTen(n: nat, q: nat)
    requires q > 0
    ensures (n / 10) % q * 10 + n % 10 == n % (10 * q)
  {
    var a := n / 10;
    var d := n % 10;
    var k := a / q;
    var m := a % q;
    assert a == q * k + m;
    assert n == 10 * a + d;
    assert n == (10 * q) * k + (m * 10 + d) by {
      assert 10 * a == 10 * (q * k) + 10 * m;
      assert 10 * (q * k) == (10 * q) * k;
    }
    assert m * 10 + d < 10 * q by {
      assert m <= q - 1;
      assert m * 10 <= (q - 1) * 10;
    }
    ModUnique(n, 10 * q, k, m * 10 + d);
  }

  /**
   * The 6-digit time index at the end of a file name `...-DDDDDD.nc`, as the pattern
   * `-(\d{6})\.nc$` finds it; `None` for any other name.
   */
  function ParseTimeIndex(f: string): (r: Option<nat>)
    ensures r.Some? <==> |f| >= 10 && f[|f| - 10] == '-' && AllDigits(f[|f| - 9..|f| - 3])
                         && f[|f| - 3..] == ".nc"
    ensures r.Some? ==> r.value < 1000000
  {
    var n := |f|;
    if n >= 10 && f[n - 10] == '-' && AllDigits(f[n - 9..n - 3]) && f[n - 3..] == ".nc" then
      DigitsValueBound(f[n - 9..n - 3]);
      assert Pow10(6) == 1000000;
      Some(DigitsValue(f[n - 9..n - 3]))
    else None
  }

  /** Any name ending in `-` + a zero-padded index + `.nc` yields that index. */
  lemma TimeIndexRoundTrip(prefix: string, n: nat)
    requires n < 1000000
    ensures ParseTimeIndex(prefix + "-" + Padded(n, 6) + ".nc") == Some(n)
  {
    assert Pow10(6) == 1000000;
    PaddedIndexRoundTrip(prefix, n, 6);
  }

  /** TimeIndexRoundTrip for a width that is six but not written as a literal. */
  lemma PaddedIndexRoundTrip(prefix: string, n: nat, width: nat)
    requires width == 6 && n < Pow10(width)
    ensures ParseTimeIndex(prefix + "-" + Padded(n, width) + ".nc") == Some(n)
  {
    var d := Padded(n, width);
    SuffixParts(prefix, d);
    ParseTimeIndexOf(prefix + "-" + d + ".nc", d);
    PaddedRoundTrip(n, width);
    ModUnique(n, Pow10(width), 0, n);
    assert DigitsValue(d) == n;
  }

  /** A name whose last ten characters are `-`, six digits and `.nc` yields those digits' value. */
  lemma ParseTimeIndexOf(f: string, d: string)
    requires |f| >= 10 && f[|f| - 10] == '-' && f[|f| - 9..|f| - 3] == d && AllDigits(d)
    requires f[|f| - 3..] == ".nc"
    ensures ParseTimeIndex(f) == Some(DigitsValue(d))
  {
  }

  /** The pieces of `prefix + "-" + d + ".nc"` for six characters `d`, counted from the end. */
  lemma SuffixParts(prefix: string, d: string)
    requires |d| == 6
    ensures var f := prefix + "-" + d + ".nc"; var k := |f|;
      k >= 10 && f[k - 10] == '-' && f[k - 9..k - 3] == d && f[k - 3..] == ".nc"
  {
    var tail := "-" + d + ".nc";
    var f := prefix + "-" + d + ".nc";
    assert f == prefix + tail;
    assert |tail| == 10;
    var k := |f|;
    assert f[k - 10..] == tail;
    assert tail[0] == '-' && tail[1..7] == d && tail[7..] == ".nc";
  }

  predicate StrictlyIncreasing(s: seq<nat>)
  {
    forall i, j :: 0 <= i < j < |s| ==> s[i] < s[j]
  }

  /** Adds a value to a strictly increasing list, keeping it strictly increasing. */
  function InsertSorted(s: seq<nat>, x: nat): (r: seq<nat>)
    requires StrictlyIncreasing(s)
    ensures StrictlyIncreasing(r)
    ensures forall y :: y in r <==> y in s || y == x
  {
    if |s| == 0 then [x]
    else if x < s[0] then [x] + s
    else if x == s[0] then s
    else
      var rest := InsertSorted(s[1..], x);
      assert forall k :: 0 <= k < |rest| ==> s[0] < rest[k] by {
        forall k | 0 <= k < |rest| ensures s[0] < rest[k] {
          if rest[k] != x {
            assert rest[k] in rest;
            assert rest[k] in s[1..];
            var m :| 0 <= m < |s[1..]| && s[1..][m] == rest[k];
            assert s[m + 1] == rest[k];
          }
        }
      }
      [s[0]] + rest
  }

  /** The time indices the names carry. */
  function ParsedIndices(files: seq<string>): set<nat>
  {
    set i | 0 <= i < |files| && ParseTimeIndex(files[i]).Some? :: ParseTimeIndex(files[i]).value
  }

  /**
   * `scan_time_indices(sim_path)` over the names of the `.nc` files in `archive/`: the
   * distinct 6-digit indices in increasing order, or `[0]` when no name carries one.
   */
  method ScanTimeIndices(files: seq<string>) returns (indices: seq<nat>)
    ensures StrictlyIncreasing(indices) && |indices| > 0
    ensures |ParsedIndices(files)| > 0 ==> forall x :: x in indices <==> x in ParsedIndices(files)
    ensures |ParsedIndices(files)| == 0 ==> indices == [0]
  {
    var found: seq<nat> := [];
    var i := 0;
    while i < |files|
      invariant 0 <= i <= |files|
      invariant StrictlyIncreasing(found)
      invariant forall x :: x in found <==> x in ParsedIndices(files[..i])
    {
      var m := ParseTimeIndex(files[i]);
      if m.Some? {
        found := InsertSorted(found, m.value);
      }
      assert files[..i + 1] == files[..i] + [files[i]];
      ParsedIndicesStep(files[..i], files[i]);
      i := i + 1;
    }
    assert files[..i] == files;
    if |found| > 0 {
      indices := found;
      assert found[0] in ParsedIndices(files);
    } else {
      indices := [0];
      assert forall x :: x !in ParsedIndices(files);
      assert ParsedIndices(files) == {};
    }
  }

  /** One more name adds its index, if it carries one. */
  lemma ParsedIndicesStep(files: seq<string>, f: string)
    ensures ParsedIndices(files + [f])
            == ParsedIndices(files) + (if ParseTimeIndex(f).Some? then {ParseTimeIndex(f).value} else {})
  {
    var g := files + [f];
    forall x | x in ParsedIndices(g)
      ensures x in ParsedIndices(files) || (ParseTimeIndex(f).Some? && x == ParseTimeIndex(f).value)
    {
      var i :| 0 <= i < |g| && ParseTimeIndex(g[i]).Some? && ParseTimeIndex(g[i]).value == x;
      if i < |files| { assert g[i] == files[i]; }
    }
    forall x | x in ParsedIndices(files) ensures x in ParsedIndices(g) {
      var i :| 0 <= i < |files| && ParseTimeIndex(files[i]).Some? && ParseTimeIndex(files[i]).value == x;
      assert g[i] == files[i];
    }
    if ParseTimeIndex(f).Some? {
      assert g[|files|] == f;
    }
  }

  // ---------------------------------------------------------------------------
  // Variable groups from file names
  // ---------------------------------------------------------------------------

  /** `[A-Za-z0-9]`. */
  predicate IsAlnum(c: char)
  {
    ('A' <= c <= 'Z') || ('a' <= c <= 'z') || ('0' <= c <= '9')
  }

  /** Length of the longest run of `[A-Za-z0-9]` starting at `i`. */
  function AlnumRun(s: string, i: nat): (n: nat)
    requires i <= |s|
    ensures i + n <= |s|
    ensures forall k :: i <= k < i + n ==> IsAlnum(s[k])
    ensures i + n == |s| || !IsAlnum(s[i + n])
    decreases |s| - i
  {
    if i == |s| || !IsAlnum(s[i]) then 0 else 1 + AlnumRun(s, i + 1)
  }

  /** The pattern `\.([CL]\.[A-Za-z0-9]+)-` matches at position `i`. */
  predicate GroupMatchAt(s: string, i: nat)
  {
    && i + 3 <= |s|
    && s[i] == '.' && (s[i + 1] == 'C' || s[i + 1] == 'L') && s[i + 2] == '.'
    && var n := AlnumRun(s, i + 3); n >= 1 && i + 3 + n < |s| && s[i + 3 + n] == '-'
  }

  /** `w` occurs in `s` starting at position `j`. */
  predicate OccursAt(s: string, j: nat, w: string)
  {
    j + |w| <= |s| && s[j..j + |w|] == w
  }

  /** A group name as the pattern captures it: `C.` or `L.` followed by letters and digits. */
  predicate IsGroupName(g: string)
  {
    |g| >= 3 && (g[0] == 'C' || g[0] == 'L') && g[1] == '.' && forall k :: 2 <= k < |g| ==> IsAlnum(g[k])
  }

  /** The leftmost match of the group pattern at or after `i`, and its captured group. */
  function FindGroup(s: string, i: nat): (r: Option<string>)
    requires i <= |s|
    ensures r.Some? ==> IsGroupName(r.value)
    ensures r.Some? ==> exists j :: i <= j && OccursAt(s, j, "." + r.value + "-")
    ensures r.None? ==> forall j :: i <= j <= |s| ==> !GroupMatchAt(s, j)
    decreases |s| - i
  {
    if i == |s| then None
    else if GroupMatchAt(s, i) then
      var n := AlnumRun(s, i + 3);
      var g := s[i + 1..i + 3 + n];
      assert OccursAt(s, i, "." + g + "-");
      Some(g)
    else FindGroup(s, i + 1)
  }

  /** `j` is the leftmost match at or after `i`, and `g` its captured group. */
  predicate LeftmostMatch(s: string, i: nat, j: nat, g: string)
  {
    && i <= j < |s| && GroupMatchAt(s, j)
    && g == s[j + 1..j + 3 + AlnumRun(s, j + 3)]
    && forall k :: i <= k < j ==> !GroupMatchAt(s, k)
  }

  /** A found group is the capture of the leftmost match. */
  lemma {:induction false} FindGroupLeftmost(s: string, i: nat)
    requires i <= |s|
    ensures FindGroup(s, i).Some? ==> exists j :: LeftmostMatch(s, i, j, FindGroup(s, i).value)
    decreases |s| - i
  {
    if i < |s| {
      if GroupMatchAt(s, i) {
        assert LeftmostMatch(s, i, i, FindGroup(s, i).value);
      } else {
        assert FindGroup(s, i) == FindGroup(s, i + 1);
        FindGroupLeftmost(s, i + 1);
        if FindGroup(s, i + 1).Some? {
          var g := FindGroup(s, i + 1).value;
          var j :| LeftmostMatch(s, i + 1, j, g);
          LeftmostMatchBack(s, i, j, g);
        }
      }
    }
  }

  /** A position that does not match extends the leftmost match found after it. */
  lemma LeftmostMatchBack(s: string, i: nat, j: nat, g: string)
    requires i < |s| && !GroupMatchAt(s, i) && LeftmostMatch(s, i + 1, j, g)
    ensures LeftmostMatch(s, i, j, g)
  {
  }

  /** `os.path.basename`: the part after the last `/`. */
  function Basename(path: string): (r: string)
    ensures '/' !in r
    ensures |r| <= |path| && r == path[|path| - |r|..]
  {
    if |path| == 0 then ""
    else if path[|path| - 1] == '/' then ""
    else Basename(path[..|path| - 1]) + [path[|path| - 1]]
  }

  /** The base name is the whole path, or is preceded by the path's last slash. */
  lemma {:induction false} BasenameAfterLastSlash(path: string)
    ensures var r := Basename(path); |r| == |path| || path[|path| - |r| - 1] == '/'
  {
    if |path| > 0 && path[|path| - 1] != '/' {
      BasenameAfterLastSlash(path[..|path| - 1]);
    }
  }

  /** The group of a data file, taken from its base name. */
  function GroupOf(path: string): Option<string>
  {
    FindGroup(Basename(path), 0)
  }

  /** No position before the first `.` can start a match. */
  lemma {:induction false} SkipNoDot(s: string, i: nat, stop: nat)
    requires i <= stop <= |s|
    requires forall k :: i <= k < stop ==> s[k] != '.'
    ensures FindGroup(s, i) == FindGroup(s, stop)
    decreases stop - i
  {
    if i < stop {
      assert !GroupMatchAt(s, i);
      assert FindGroup(s, i) == FindGroup(s, i + 1);
      SkipNoDot(s, i + 1, stop);
    }
  }

  /** A run of letters and digits ended by a non-alphanumeric is exactly the run. */
  lemma {:induction false} AlnumRunExact(s: string, i: nat, n: nat)
    requires i + n < |s|
    requires forall k :: i <= k < i + n ==> IsAlnum(s[k])
    requires !IsAlnum(s[i + n])
    ensures AlnumRun(s, i) == n
    decreases n
  {
    if n > 0 {
      AlnumRunExact(s, i + 1, n - 1);
    }
  }

  /**
   * A file name whose stem has no `.` before the group tag yields that group, e.g. a name
   * `exp.L.Thermodynamic-000000.nc` yields `L.Thermodynamic`.
   */
  lemma GroupOfTaggedName(stem: string, g: string, rest: string)
    requires '.' !in stem && '/' !in stem && '/' !in g && '/' !in rest
    requires IsGroupName(g)
    ensures GroupOf(stem + "." + g + "-" + rest) == Some(g)
  {
    var w := "." + g + "-";
    var s := stem + w + rest;
    assert s == stem + "." + g + "-" + rest;
    var i := |stem|;
    assert Basename(s) == s by {
      assert '/' !in w;
      assert '/' !in s;
      BasenameNoSlash(s);
    }
    assert FindGroup(s, 0) == FindGroup(s, i) by {
      forall k | 0 <= k < i ensures s[k] != '.' {
        assert s[k] == stem[k];
      }
      SkipNoDot(s, 0, i);
    }
    assert FindGroup(s, i) == Some(g) by {
      assert s[i..i + |w|] == w;
      GroupFoundAt(s, i, g);
    }
  }

  /** A group tag at position `i` is the match found from `i`. */
  lemma GroupFoundAt(s: string, i: nat, g: string)
    requires IsGroupName(g) && OccursAt(s, i, "." + g + "-")
    ensures FindGroup(s, i) == Some(g)
  {
    var w := "." + g + "-";
    assert |w| == |g| + 2 && w[0] == '.' && w[|g| + 1] == '-';
    assert forall k :: 0 <= k < |g| ==> w[k + 1] == g[k];
    assert w[1..|g| + 1] == g;
    assert s[i..i + |w|] == w;
    assert s[i] == w[0] == '.';
    assert s[i + 1] == w[1] == g[0];
    assert s[i + 2] == w[2] == g[1] == '.';
    forall k | i + 3 <= k < i + 1 + |g| ensures IsAlnum(s[k]) {
      assert s[k] == w[k - i] == g[k - i - 1];
    }
    assert s[i + 1 + |g|] == w[|g| + 1] == '-';
    AlnumRunExact(s, i + 3, |g| - 2);
    assert GroupMatchAt(s, i);
    assert s[i + 1..i + 1 + |g|] == w[1..|g| + 1] == g;
  }

  /** A path without `/` is its own base name. */
  lemma {:induction false} BasenameNoSlash(path: string)
    requires '/' !in path
    ensures Basename(path) == path
  {
    if |path| > 0 {
      var front := path[..|path| - 1];
      assert '/' !in front by {
        forall k | 0 <= k < |front| ensures front[k] != '/' {
          assert front[k] == path[k];
        }
      }
      BasenameNoSlash(front);
    }
  }

  /** Python's `<=` on strings: lexicographic by character code. */
  predicate StrLe(a: string, b: string)
  {
    |a| == 0 || (|b| > 0 && (a[0] < b[0] || (a[0] == b[0] && StrLe(a[1..], b[1..]))))
  }

  lemma {:induction false} StrLeTotal(a: string, b: string)
    ensures StrLe(a, b) || StrLe(b, a)
  {
    if |a| > 0 && |b| > 0 && a[0] == b[0] {
      StrLeTotal(a[1..], b[1..]);
    }
  }

  lemma {:induction false} StrLeTrans(a: string, b: string, c: string)
    requires StrLe(a, b) && StrLe(b, c)
    ensures StrLe(a, c)
  {
    if |a| > 0 && a[0] == b[0] && b[0] == c[0] {
      StrLeTrans(a[1..], b[1..], c[1..]);
    }
  }

  predicate SortedStrings(s: seq<string>)
  {
    forall i, j :: 0 <= i < j < |s| ==> StrLe(s[i], s[j])
  }

  /** Puts `x` into a sorted list after the elements it is not below. */
  function InsertString(s: seq<string>, x: string): (r: seq<string>)
    requires SortedStrings(s)
    ensures SortedStrings(r)
    ensures multiset(r) == multiset(s) + multiset{x}
  {
    if |s| == 0 then [x]
    else if StrLe(x, s[0]) && x != s[0] then
      forall j | 0 <= j < |s| ensures StrLe(x, s[j]) {
        if j > 0 { StrLeTrans(x, s[0], s[j]); }
      }
      [x] + s
    else
      var rest := InsertString(s[1..], x);
      InsertAfterHead(s, x, rest);
      [s[0]] + rest
  }

  /** The head of a sorted list stays first when `x` is not strictly below it. */
  lemma InsertAfterHead(s: seq<string>, x: string, rest: seq<string>)
    requires |s| > 0 && SortedStrings(s) && !(StrLe(x, s[0]) && x != s[0])
    requires SortedStrings(rest) && multiset(rest) == multiset(s[1..]) + multiset{x}
    ensures SortedStrings([s[0]] + rest)
    ensures multiset([s[0]] + rest) == multiset(s) + multiset{x}
  {
    StrLeTotal(x, s[0]);
    forall y | y in rest ensures StrLe(s[0], y) {
      assert y in multiset(rest);
      if y != x {
        assert y in multiset(s[1..]);
        var j :| 0 <= j < |s[1..]| && s[1..][j] == y;
        assert s[j + 1] == y;
      }
    }
    var r := [s[0]] + rest;
    forall i, j | 0 <= i < j < |r| ensures StrLe(r[i], r[j]) {
      if i == 0 {
        assert r[j] == rest[j - 1];
        assert r[j] in rest;
      } else {
        assert r[i] == rest[i - 1] && r[j] == rest[j - 1];
      }
    }
    assert s == [s[0]] + s[1..];
  }

  /** `sorted(names)`: the same names in ascending order. */
  function SortStrings(s: seq<string>): (r: seq<string>)
    ensures SortedStrings(r)
    ensures multiset(r) == multiset(s)
  {
    if |s| == 0 then []
    else
      assert s == s[..|s| - 1] + [s[|s| - 1]];
      InsertString(SortStrings(s[..|s| - 1]), s[|s| - 1])
  }

  /** Coordinate variables that are never offered as data variables. */
  const COORD_NAMES: seq<string> := ["xc", "yc", "zc", "time", "lon", "lat", "lev"]

  /** The data variables of a group file without the coordinate variables, in file order. */
  function DataVariables(vars: seq<string>): (r: seq<string>)
    ensures forall v :: v in r <==> v in vars && v !in COORD_NAMES
    ensures |r| <= |vars|
  {
    if |vars| == 0 then []
    else
      var rest := DataVariables(vars[1..]);
      assert vars == [vars[0]] + vars[1..];
      if vars[0] in COORD_NAMES then rest else [vars[0]] + rest
  }

  /** An insertion-ordered dictionary from menu labels to variable names. */
  type Menu = seq<(string, seq<string>)>

  function Labels<V>(m: seq<(string, V)>): seq<string>
  {
    seq(|m|, i requires 0 <= i < |m| => m[i].0)
  }

  predicate DistinctLabels<V>(m: seq<(string, V)>)
  {
    forall i, j :: 0 <= i < j < |m| ==> m[i].0 != m[j].0
  }

  /**
   * `d[key] = value` on an insertion-ordered dictionary: an existing key keeps its position
   * and takes the new value; a new key is appended.
   */
  function Assign<V>(m: seq<(string, V)>, key: string, value: V): (r: seq<(string, V)>)
    ensures |r| == |m| + (if key in Labels(m) then 0 else 1)
    ensures forall i :: 0 <= i < |m| ==> r[i] == (if m[i].0 == key then (key, value) else m[i])
    ensures key !in Labels(m) ==> r[|m|] == (key, value)
    ensures DistinctLabels(m) ==> DistinctLabels(r)
  {
    if key in Labels(m) then
      seq(|m|, i requires 0 <= i < |m| => if m[i].0 == key then (key, value) else m[i])
    else
      assert forall i :: 0 <= i < |m| ==> m[i].0 != key by {
        forall i | 0 <= i < |m| ensures m[i].0 != key { assert Labels(m)[i] == m[i].0; }
      }
      m + [(key, value)]
  }

  /**
   * `enrich_variable_groups(groups)`: a copy of the groups with a "File: Topography"
   * entry offering only terrain height. The argument is a value, so it is never changed.
   */
  function EnrichVariableGroups(groups: Menu): (r: Menu)
    ensures |r| == |groups| + (if "File: Topography" in Labels(groups) then 0 else 1)
    ensures exists i :: 0 <= i < |r| && r[i] == ("File: Topography", [TERRAIN_VAR_NAME])
    ensures forall i :: 0 <= i < |groups| ==>
      r[i] == (if groups[i].0 == "File: Topography" then ("File: Topography", [TERRAIN_VAR_NAME]) else groups[i])
    ensures "File: Topography" !in Labels(groups) ==> r[|groups|] == ("File: Topography", [TERRAIN_VAR_NAME])
    ensures DistinctLabels(groups) ==> DistinctLabels(r)
  {
    var r := Assign(groups, "File: Topography", [TERRAIN_VAR_NAME]);
    if "File: Topography" in Labels(groups) then
      var i :| 0 <= i < |groups| && Labels(groups)[i] == "File: Topography";
      assert r[i] == ("File: Topography", [TERRAIN_VAR_NAME]);
      r
    else
      r
  }

  /** The group-to-first-file table after the given files, in the order groups appear. */
  function GroupFiles(files: seq<string>): (r: seq<(string, string)>)
    ensures DistinctLabels(r)
  {
    if |files| == 0 then []
    else
      var m := GroupFiles(files[..|files| - 1]);
      var f := files[|files| - 1];
      match GroupOf(f)
      case None => m
      case Some(g) => if g in Labels(m) then m else Assign(m, g, f)
  }

  /** Each group is paired with the first file that carries it. */
  lemma {:induction false} GroupFilesFirstWins(files: seq<string>)
    ensures forall e :: e in GroupFiles(files) ==>
      exists i :: 0 <= i < |files| && files[i] == e.1 && GroupOf(files[i]) == Some(e.0)
                  && forall k :: 0 <= k < i ==> GroupOf(files[k]) != Some(e.0)
  {
    if |files| > 0 {
      var front := files[..|files| - 1];
      var f := files[|files| - 1];
      var m := GroupFiles(front);
      forall e | e in GroupFiles(files)
        ensures exists i :: 0 <= i < |files| && files[i] == e.1 && GroupOf(files[i]) == Some(e.0)
                  && forall k :: 0 <= k < i ==> GroupOf(files[k]) != Some(e.0)
      {
        if e in m {
          var i :| 0 <= i < |front| && front[i] == e.1 && GroupOf(front[i]) == Some(e.0)
                   && forall k :: 0 <= k < i ==> GroupOf(front[k]) != Some(e.0) by {
            GroupFilesFirstWins(front);
          }
          assert files[i] == front[i];
          assert forall k :: 0 <= k < i ==> files[k] == front[k];
        } else {
          FirstFileOfNewGroup(files, e);
        }
      }
    }
  }

  /** An entry that the last file adds names its group and that file, which no earlier file carries. */
  lemma FirstFileOfNewGroup(files: seq<string>, e: (string, string))
    requires |files| > 0 && e in GroupFiles(files) && e !in GroupFiles(files[..|files| - 1])
    ensures files[|files| - 1] == e.1 && GroupOf(files[|files| - 1]) == Some(e.0)
    ensures forall k :: 0 <= k < |files| - 1 ==> GroupOf(files[k]) != Some(e.0)
  {
    var front := files[..|files| - 1];
    NewGroupEntry(files, e);
    GroupFilesCovers(front);
    forall k | 0 <= k < |files| - 1 ensures GroupOf(files[k]) != Some(e.0) {
      assert files[k] == front[k];
    }
  }

  /** The entry the last file adds is its group, which the earlier table lacks, and that file. */
  lemma NewGroupEntry(files: seq<string>, e: (string, string))
    requires |files| > 0 && e in GroupFiles(files) && e !in GroupFiles(files[..|files| - 1])
    ensures files[|files| - 1] == e.1 && GroupOf(files[|files| - 1]) == Some(e.0)
    ensures e.0 !in Labels(GroupFiles(files[..|files| - 1]))
  {
    var m := GroupFiles(files[..|files| - 1]);
    var f := files[|files| - 1];
    var go := GroupOf(f);
    assert go.Some? && go.value !in Labels(m);
    assert GroupFiles(files) == Assign(m, go.value, f);
    AssignNewEntry(m, go.value, f, e);
  }

  /** An entry that assigning a new key adds is the new key with its value. */
  lemma AssignNewEntry<V>(m: seq<(string, V)>, key: string, value: V, e: (string, V))
    requires key !in Labels(m) && e in Assign(m, key, value) && e !in m
    ensures e == (key, value)
  {
    assert Assign(m, key, value) == m + [(key, value)];
  }

  /** Every group that some file carries appears in the table. */
  lemma {:induction false} GroupFilesCovers(files: seq<string>)
    ensures forall i :: 0 <= i < |files| && GroupOf(files[i]).Some? ==> GroupOf(files[i]).value in Labels(GroupFiles(files))
  {
    if |files| > 0 {
      var front := files[..|files| - 1];
      var f := files[|files| - 1];
      var m := GroupFiles(front);
      LabelsGrow(m, GroupFiles(files));
      forall i | 0 <= i < |files| && GroupOf(files[i]).Some?
        ensures GroupOf(files[i]).value in Labels(GroupFiles(files))
      {
        if i < |front| {
          assert files[i] == front[i];
          GroupFilesCovers(front);
        } else if GroupOf(f).value !in Labels(m) {
          assert Labels(GroupFiles(files))[|m|] == GroupOf(f).value;
        }
      }
    }
  }

  /** A table that extends another keeps all its labels. */
  lemma LabelsGrow<V>(m: seq<(string, V)>, n: seq<(string, V)>)
    requires |m| <= |n| && forall i :: 0 <= i < |m| ==> n[i].0 == m[i].0
    ensures forall x :: x in Labels(m) ==> x in Labels(n)
  {
    forall x | x in Labels(m) ensures x in Labels(n) {
      var i :| 0 <= i < |m| && Labels(m)[i] == x;
      assert Labels(n)[i] == x;
    }
  }

  /** The menu entries of the group files, in group order: non-empty sorted data variables. */
  function GroupMenu(groupFiles: seq<(string, string)>, readVars: string -> Outcome<seq<string>>): Menu
  {
    if |groupFiles| == 0 then []
    else
      var m := GroupMenu(groupFiles[..|groupFiles| - 1], readVars);
      var (g, f) := groupFiles[|groupFiles| - 1];
      match readVars(f)
      case Raises => m
      case Returns(vars) =>
        var dv := DataVariables(vars);
        if |dv| > 0 then Assign(m, "File: " + g, SortStrings(dv)) else m
  }

  /** The diagnostics entry, added when the diagnostics list is available and non-empty. */
  function WithDiagnostics(m: Menu, diagnostics: Outcome<seq<string>>): Menu
  {
    if diagnostics.Returns? && |diagnostics.value| > 0
    then Assign(m, "Calc: Diagnostics", SortStrings(diagnostics.value))
    else m
  }

  /**
   * An entry offered for a group file: labelled with a group whose file could be read,
   * holding exactly that file's data variables, sorted and non-empty.
   */
  predicate FileEntry(e: (string, seq<string>), groupFiles: seq<(string, string)>,
                      readVars: string -> Outcome<seq<string>>)
  {
    exists j :: 0 <= j < |groupFiles| && e.0 == "File: " + groupFiles[j].0
                && readVars(groupFiles[j].1).Returns?
                && |e.1| > 0 && SortedStrings(e.1)
                && multiset(e.1) == multiset(DataVariables(readVars(groupFiles[j].1).value))
  }

  /** Every entry built from the group files is a proper file entry without coordinate names. */
  lemma {:induction false} GroupMenuEntries(groupFiles: seq<(string, string)>, readVars: string -> Outcome<seq<string>>)
    ensures forall e :: e in GroupMenu(groupFiles, readVars) ==> FileEntry(e, groupFiles, readVars)
    ensures forall e, v :: e in GroupMenu(groupFiles, readVars) && v in e.1 ==> v !in COORD_NAMES
  {
    if |groupFiles| > 0 {
      var front := groupFiles[..|groupFiles| - 1];
      GroupMenuEntries(front, readVars);
      var m := GroupMenu(front, readVars);
      var (g, f) := groupFiles[|groupFiles| - 1];
      forall e | e in GroupMenu(groupFiles, readVars)
        ensures FileEntry(e, groupFiles, readVars)
        ensures forall v :: v in e.1 ==> v !in COORD_NAMES
      {
        if e in m {
          assert FileEntry(e, front, readVars);
          var j :| 0 <= j < |front| && e.0 == "File: " + front[j].0
                   && readVars(front[j].1).Returns?
                   && |e.1| > 0 && SortedStrings(e.1)
                   && multiset(e.1) == multiset(DataVariables(readVars(front[j].1).value));
          assert groupFiles[j] == front[j];
        } else {
          var vars := readVars(f).value;
          var dv := DataVariables(vars);
          var sorted := SortStrings(dv);
          assert e == ("File: " + g, sorted) by {
            var i :| 0 <= i < |GroupMenu(groupFiles, readVars)| && GroupMenu(groupFiles, readVars)[i] == e;
          }
          var last := |groupFiles| - 1;
          assert e.0 == "File: " + groupFiles[last].0;
          assert |sorted| > 0 by {
            assert |multiset(sorted)| == |multiset(dv)| == |dv|;
          }
          forall v | v in sorted ensures v !in COORD_NAMES {
            assert v in multiset(sorted);
            assert v in multiset(dv);
          }
        }
      }
    }
  }

  /** Conversely, every group whose file reads with some data variables gets an entry. */
  lemma {:induction false} GroupMenuCovers(groupFiles: seq<(string, string)>, readVars: string -> Outcome<seq<string>>)
    ensures forall j :: 0 <= j < |groupFiles| && readVars(groupFiles[j].1).Returns?
                        && |DataVariables(readVars(groupFiles[j].1).value)| > 0
                        ==> "File: " + groupFiles[j].0 in Labels(GroupMenu(groupFiles, readVars))
  {
    if |groupFiles| > 0 {
      var front := groupFiles[..|groupFiles| - 1];
      GroupMenuCovers(front, readVars);
      var m := GroupMenu(front, readVars);
      var r := GroupMenu(groupFiles, readVars);
      LabelsGrow(m, r);
      var last := |groupFiles| - 1;
      forall j | 0 <= j < |groupFiles| && readVars(groupFiles[j].1).Returns?
                 && |DataVariables(readVars(groupFiles[j].1).value)| > 0
        ensures "File: " + groupFiles[j].0 in Labels(r)
      {
        if j < last {
          assert groupFiles[j] == front[j];
        } else {
          var key := "File: " + groupFiles[last].0;
          if key !in Labels(m) {
            assert Labels(r)[|m|] == key;
          } else {
            var i :| 0 <= i < |m| && Labels(m)[i] == key;
            assert Labels(r)[i] == key;
          }
        }
      }
    }
  }

  /**
   * `scan_variable_groups(sim_path)` given the `*-000000.nc` files of `archive/`, the
   * data variables each file offers (or raises), and the diagnostics list (or raises).
   * Files are visited in sorted order, each group is read from the first file carrying
   * it, files that cannot be read and groups without data variables are skipped, then
   * the diagnostics and topography entries are added.
   */
  method ScanVariableGroups(
    globbed: seq<string>, readVars: string -> Outcome<seq<string>>, diagnostics: Outcome<seq<string>>)
    returns (menu: Menu)
    ensures menu == EnrichVariableGroups(WithDiagnostics(
                      GroupMenu(GroupFiles(SortStrings(globbed)), readVars), diagnostics))
  {
    var files := SortStrings(globbed);
    var groupMap: seq<(string, string)> := [];
    var i := 0;
    while i < |files|
      invariant 0 <= i <= |files|
      invariant groupMap == GroupFiles(files[..i])
    {
      var f := files[i];
      assert files[..i + 1][..i] == files[..i];
      var m := GroupOf(f);
      if m.Some? && m.value !in Labels(groupMap) {
        groupMap := Assign(groupMap, m.value, f);
      }
      i := i + 1;
    }
    assert files[..i] == files;
    menu := [];
    var k := 0;
    while k < |groupMap|
      invariant 0 <= k <= |groupMap|
      invariant menu == GroupMenu(groupMap[..k], readVars)
    {
      var (g, f) := groupMap[k];
      assert groupMap[..k + 1][..k] == groupMap[..k];
      var vars := readVars(f);
      if vars.Returns? {
        var dv := DataVariables(vars.value);
        if |dv| > 0 {
          menu := Assign(menu, "File: " + g, SortStrings(dv));
        }
      }
      k := k + 1;
    }
    assert groupMap[..k] == groupMap;
    if diagnostics.Returns? && |diagnostics.value| > 0 {
      menu := Assign(menu, "Calc: Diagnostics", SortStrings(diagnostics.value));
    }
    menu := EnrichVariableGroups(menu);
  }

  // ---------------------------------------------------------------------------
  // Terrain
  // ---------------------------------------------------------------------------

  /** The terrain reader: the loader of a simulation's terrain and the slicing call. */
  datatype TerrainSource = TerrainSource(
    height: string -> Outcome<DataArray>,
    slice: (DataArray, Range, Range) -> Outcome<DataArray>)

  /** A start/end pair with `end <= start` becomes the one-element range `(start, start + 1)`. */
  function RepairInverted(r: Range): (s: Range)
    ensures s.0 == r.0 && s.1 > s.0
    ensures r.1 > r.0 ==> s == r
  {
    if r.1 <= r.0 then (r.0, r.0 + 1) else r
  }

  /**
   * The terrain returned for a simulation: sliced to the repaired ranges when both ranges
   * are given (unsliced when slicing raises), and always named terrain height. A failing
   * loader raises.
   */
  function TerrainSpec(src: TerrainSource, simPath: string, x: Option<Range>, y: Option<Range>): (r: Outcome<DataArray>)
    ensures r.Raises? <==> src.height(simPath).Raises?
    ensures r.Returns? ==> r.value.name == TERRAIN_VAR_NAME
    ensures r.Returns? && (x.None? || y.None?) ==> r.value == src.height(simPath).value.(name := TERRAIN_VAR_NAME)
    ensures r.Returns? && x.Some? && y.Some? ==>
      var sliced := src.slice(src.height(simPath).value, RepairInverted(x.value), RepairInverted(y.value));
      r.value == (if sliced.Returns? then sliced.value else src.height(simPath).value).(name := TERRAIN_VAR_NAME)
  {
    match src.height(simPath)
    case Raises => Raises
    case Returns(t) =>
      var sliced :=
        if x.Some? && y.Some? then
          match src.slice(t, RepairInverted(x.value), RepairInverted(y.value))
          case Returns(d) => d
          case Raises => t
        else t;
      Returns(sliced.(name := TERRAIN_VAR_NAME))
  }

  /**
   * The module-level terrain memo table `_terrain_cache`: each simulation's terrain is
   * loaded once and then served from the table.
   */
  class TerrainCache {
    const source: TerrainSource
    var memo: map<string, DataArray>
    /** Paths whose terrain has been loaded, in load order. */
    ghost var loaded: seq<string>
    /** Number of calls made to the terrain loader. */
    ghost var loaderCalls: nat

    ghost predicate Valid()
      reads this
    {
      && Distinct(loaded)
      && (forall p :: p in memo <==> p in loaded)
      && (forall p :: p in memo ==> source.height(p) == Returns(memo[p]))
    }

    constructor (source: TerrainSource)
      ensures Valid() && this.source == source
      ensures memo == map[] && loaded == [] && loaderCalls == 0
    {
      this.source := source;
      memo := map[];
      loaded := [];
      loaderCalls := 0;
    }

    /**
     * `get_terrain_data(sim_path, x_range, y_range)`: the loader is called only for a path
     * not yet in the table, and a successful load is remembered.
     */
    method GetTerrainData(simPath: string, x: Option<Range>, y: Option<Range>) returns (r: Outcome<DataArray>)
      requires Valid()
      modifies this
      ensures Valid()
      ensures r == TerrainSpec(source, simPath, x, y)
      ensures loaderCalls == old(loaderCalls) + (if simPath in old(memo) then 0 else 1)
      ensures memo == if simPath !in old(memo) && r.Returns?
                      then old(memo)[simPath := source.height(simPath).value] else old(memo)
    {
      var t: DataArray;
      if simPath in memo {
        t := memo[simPath];
      } else {
        loaderCalls := loaderCalls + 1;
        var h := source.height(simPath);
        if h.Raises? {
          return Raises;
        }
        t := h.value;
        memo := memo[simPath := t];
        loaded := loaded + [simPath];
      }
      var sliced := t;
      if x.Some? && y.Some? {
        var xr := RepairInverted(x.value);
        var yr := RepairInverted(y.value);
        var s := source.slice(t, xr, yr);
        if s.Returns? {
          sliced := s.value;
        }
      }
      r := Returns(sliced.(name := TERRAIN_VAR_NAME));
    }
  }


  /**
   * `list_simulations(base_path)`: the reader's listing, or nothing when the path is not
   * a directory or the reader raises.
   */
  function ListSimulations(isDir: bool, listing: Outcome<seq<string>>): (r: seq<string>)
    ensures !isDir || listing.Raises? ==> r == []
    ensures isDir && listing.Returns? ==> r == listing.value
  {
    if !isDir then []
    else match listing
      case Raises => []
      case Returns(sims) => sims
  }
}
