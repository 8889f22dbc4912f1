/**
 * Colormap tables and lookups (plotting/colormaps.py): the NCL colormap categories, the
 * flat list and default derived from them, per-variable defaults with `*` patterns, and
 * colormap resolution with its name-reversal fallback.
 */
module Colormaps {
  import opened Wrappers
  import opened DataLoader
  import opened DataProcessor

  /** NCL_CMAP_CATEGORIES, in insertion order. */
  const NCL_CMAP_CATEGORIES: seq<(string, seq<string>)> := [
    ("Rainbow", ["BlAqGrYeOrRe", "BlAqGrYeOrReVi200", "BlGrYeOrReVi200", "GMT_seis_r",
                 "GMT_wysiwygcont", "MPL_jet", "MPL_rainbow", "NCV_bright", "MPL_hsv",
                 "WhBlGrYeRe", "WhiteBlueGreenYellowRed"]),
    ("Earth/Ocean", ["cmocean_deep", "cmp_haxby_r", "GMT_drywet", "OceanLakeLandSnow"]),
    ("MeteoSwiss", ["precip2_17lev", "precip3_16lev"]),
    ("Blue/Red", ["MPL_bwr", "MPL_coolwarm", "MPL_RdBu_r", "MPL_seismic", "BlueWhiteOrangeRed",
                  "NCV_jaisnd"]),
    ("Vegetation", ["MPL_BrBG", "NEO_div_vegetation_a"]),
    ("Blue/Green", ["cmocean_haline", "MPL_BuGn", "MPL_GnBu", "MPL_viridis", "MPL_YlGnBu",
                    "WhiteBlue", "MPL_Purples", "WhiteGreen"]),
    ("Red/Orange", ["MPL_Oranges", "MPL_Reds", "WhiteYellowOrangeRed"]),
    ("Gray", ["MPL_Greys"])
  ]

  /** The category lists concatenated in category order. */
  function Flatten(cats: seq<(string, seq<string>)>): (r: seq<string>)
    ensures forall i, j :: 0 <= i < |cats| && 0 <= j < |cats[i].1| ==> cats[i].1[j] in r
    ensures forall x :: x in r ==> exists i :: 0 <= i < |cats| && x in cats[i].1
  {
    if |cats| == 0 then []
    else
      var front := Flatten(cats[..|cats| - 1]);
      forall i, j | 0 <= i < |cats| - 1 && 0 <= j < |cats[i].1|
        ensures cats[i].1[j] in front
      {
        assert cats[..|cats| - 1][i] == cats[i];
      }
      forall x | x in front ensures exists i :: 0 <= i < |cats| && x in cats[i].1 {
        var i :| 0 <= i < |cats| - 1 && x in cats[..|cats| - 1][i].1;
        assert cats[..|cats| - 1][i] == cats[i];
      }
      front + cats[|cats| - 1].1
  }

  /** ALL_NCL_CMAPS */
  const ALL_NCL_CMAPS: seq<string> := Flatten(NCL_CMAP_CATEGORIES)

  /** The default among the colormaps: `MPL_GnBu` when listed, the first one otherwise. */
  function PickDefault(all: seq<string>): (r: string)
    requires |all| > 0
    ensures r in all
    ensures "MPL_GnBu" in all <==> r == "MPL_GnBu"
  {
    if "MPL_GnBu" in all then "MPL_GnBu" else all[0]
  }

  lemma AllColormapsNonEmpty()
    ensures |ALL_NCL_CMAPS| > 0
  {
    assert NCL_CMAP_CATEGORIES[0].1[0] in ALL_NCL_CMAPS;
  }

  /** DEFAULT_COLORMAP */
  function DefaultColormap(): (r: string)
    ensures r in ALL_NCL_CMAPS
  {
    AllColormapsNonEmpty();
    PickDefault(ALL_NCL_CMAPS)
  }

  /** `MPL_GnBu` is listed (under Blue/Green), so it is the default. */
  lemma DefaultColormapIsGnBu()
    ensures DefaultColormap() == "MPL_GnBu"
  {
    assert NCL_CMAP_CATEGORIES[5].1[2] == "MPL_GnBu";
    assert "MPL_GnBu" in ALL_NCL_CMAPS;
  }

  /** The settings dictionary of a variable; a missing key is `None`. */
  datatype CmapDefaults = CmapDefaults(cmap: Option<string>, reverse: Option<bool>, symmetric: Option<bool>)

  /** `{}` */
  const NO_DEFAULTS := CmapDefaults(None, None, None)

  function CmapOnly(name: string): CmapDefaults { CmapDefaults(Some(name), None, None) }

  function Symmetric(name: string): CmapDefaults { CmapDefaults(Some(name), None, Some(true)) }

  /** The first entries of VARIABLE_DEFAULTS: radiation, precipitation, winds and vorticity. */
  const DYNAMICS_DEFAULTS: seq<(string, CmapDefaults)> := [
    ("olr", CmapDefaults(Some("MPL_GnBu"), Some(false), None)),
    ("sprec", CmapOnly("precip3_16lev")),
    ("u", Symmetric("MPL_RdBu_r")), ("v", Symmetric("MPL_RdBu_r")), ("w", Symmetric("MPL_RdBu_r")),
    ("zeta", Symmetric("MPL_seismic")), ("eta", Symmetric("MPL_seismic")), ("xi", Symmetric("MPL_seismic"))
  ]

  /** Then the microphysics fields and water vapour. */
  const MICROPHYSICS_DEFAULTS: seq<(string, CmapDefaults)> := [
    ("brim", CmapOnly("precip3_16lev")), ("qc", CmapOnly("precip3_16lev")),
    ("qi", CmapOnly("precip3_16lev")), ("qr", CmapOnly("precip3_16lev")),
    ("qrim", CmapOnly("precip3_16lev")), ("nc", CmapOnly("precip3_16lev")),
    ("ni", CmapOnly("precip3_16lev")), ("nr", CmapOnly("precip3_16lev")),
    ("qv", CmapOnly("MPL_GnBu"))
  ]

  /** Then the thermodynamic fields. */
  const THERMO_DEFAULTS: seq<(string, CmapDefaults)> := [
    ("th", CmapOnly("MPL_jet")), ("t", CmapOnly("MPL_jet")), ("tv", CmapOnly("MPL_jet")),
    ("the", CmapOnly("MPL_jet")), ("thes", CmapOnly("MPL_jet")), ("thv", CmapOnly("MPL_jet"))
  ]

  /** The one pattern key, for tracers. */
  const TRACER_DEFAULT: (string, CmapDefaults) := ("tr*", CmapOnly("WhiteBlueGreenYellowRed"))

  /** Then the column and surface fields and terrain. */
  const SURFACE_DEFAULTS: seq<(string, CmapDefaults)> := [
    ("cwv", CmapOnly("GMT_drywet")), ("iwp", CmapOnly("precip3_16lev")), ("lwp", CmapOnly("precip3_16lev")),
    ("hm", CmapOnly("MPL_jet")), ("hms", CmapOnly("MPL_jet")), ("qvs", CmapOnly("MPL_jet")),
    ("rh", CmapOnly("MPL_BrBG")), ("sd", CmapOnly("MPL_jet")),
    ("ws", CmapOnly("WhiteBlueGreenYellowRed")),
    ("terrain_height", CmapOnly("OceanLakeLandSnow"))
  ]

  /** VARIABLE_DEFAULTS, in insertion order. */
  const VARIABLE_DEFAULTS: seq<(string, CmapDefaults)> :=
    DYNAMICS_DEFAULTS + MICROPHYSICS_DEFAULTS + THERMO_DEFAULTS + [TRACER_DEFAULT] + SURFACE_DEFAULTS

  /** No key of the table is a pattern. */
  predicate PlainKeys(t: seq<(string, CmapDefaults)>)
  {
    forall i :: 0 <= i < |t| ==> '*' !in t[i].0
  }

  /**
   * `fnmatch.fnmatch(name, pattern)` for patterns built from literal characters, `*` (any
   * run) and `?` (any one character), matched against the whole name.
   */
  function Glob(name: string, pattern: string): bool
    decreases |name| + |pattern|
  {
    if |pattern| == 0 then |name| == 0
    else if pattern[0] == '*' then Glob(name, pattern[1..]) || (|name| > 0 && Glob(name[1..], pattern))
    else |name| > 0 && (pattern[0] == '?' || pattern[0] == name[0]) && Glob(name[1..], pattern[1..])
  }

  /** A trailing `*` matches every name. */
  lemma {:induction false} GlobStar(name: string)
    ensures Glob(name, "*")
    decreases |name|
  {
    if |name| > 0 {
      GlobStar(name[1..]);
    }
  }

  /** A pattern of literal characters followed by `*` matches exactly the names with that prefix. */
  lemma {:induction false} GlobPrefixStar(name: string, prefix: string)
    requires forall i :: 0 <= i < |prefix| ==> prefix[i] != '*' && prefix[i] != '?'
    ensures Glob(name, prefix + "*") <==> StartsWith(name, prefix)
    decreases |prefix|
  {
    if |prefix| == 0 {
      assert prefix + "*" == "*";
      GlobStar(name);
    } else {
      assert (prefix + "*")[1..] == prefix[1..] + "*";
      if |name| > 0 {
        GlobPrefixStar(name[1..], prefix[1..]);
        if StartsWith(name, prefix) {
          assert name[1..][..|prefix| - 1] == name[..|prefix|][1..];
        }
        if name[0] == prefix[0] && StartsWith(name[1..], prefix[1..]) {
          assert name[..|prefix|] == [name[0]] + name[1..][..|prefix| - 1];
        }
      }
    }
  }

  /** The entry of the first key equal to the name. */
  function ExactEntry(table: seq<(string, CmapDefaults)>, name: string): (r: Option<CmapDefaults>)
    ensures r.None? <==> forall i :: 0 <= i < |table| ==> table[i].0 != name
    ensures forall i ::
              (0 <= i < |table| && table[i].0 == name && forall j :: 0 <= j < i ==> table[j].0 != name)
              ==> r == Some(table[i].1)
  {
    if |table| == 0 then None
    else if table[0].0 == name then Some(table[0].1)
    else
      var r := ExactEntry(table[1..], name);
      assert forall i :: 1 <= i < |table| ==> table[i] == table[1..][i - 1];
      r
  }

  /** The key is a pattern (holds `*`) that matches the name. */
  predicate PatternMatches(key: string, name: string)
  {
    '*' in key && Glob(name, key)
  }

  /** The entry of the first pattern key matching the name. */
  function WildcardEntry(table: seq<(string, CmapDefaults)>, name: string): (r: Option<CmapDefaults>)
    ensures r.None? <==> forall i :: 0 <= i < |table| ==> !PatternMatches(table[i].0, name)
    ensures forall i ::
              (0 <= i < |table| && PatternMatches(table[i].0, name) &&
               forall j :: 0 <= j < i ==> !PatternMatches(table[j].0, name))
              ==> r == Some(table[i].1)
  {
    if |table| == 0 then None
    else if PatternMatches(table[0].0, name) then Some(table[0].1)
    else
      var r := WildcardEntry(table[1..], name);
      assert forall i :: 1 <= i < |table| ==> table[i] == table[1..][i - 1];
      r
  }

  /**
   * `get_variable_default(var_name)`: the settings of the exact key, else of the first
   * matching pattern key, else `{}`.
   */
  function GetVariableDefault(name: string): (r: CmapDefaults)
    ensures ExactEntry(VARIABLE_DEFAULTS, name).Some? ==> r == ExactEntry(VARIABLE_DEFAULTS, name).value
    ensures ExactEntry(VARIABLE_DEFAULTS, name).None? && WildcardEntry(VARIABLE_DEFAULTS, name).Some?
            ==> r == WildcardEntry(VARIABLE_DEFAULTS, name).value
    ensures ExactEntry(VARIABLE_DEFAULTS, name).None? && WildcardEntry(VARIABLE_DEFAULTS, name).None?
            ==> r == NO_DEFAULTS
  {
    match ExactEntry(VARIABLE_DEFAULTS, name)
    case Some(d) => d
    case None =>
      match WildcardEntry(VARIABLE_DEFAULTS, name)
      case Some(d) => d
      case None => NO_DEFAULTS
  }

  /** Wind components default to a symmetric `MPL_RdBu_r`. */
  lemma WindDefault()
    ensures GetVariableDefault("u") == CmapDefaults(Some("MPL_RdBu_r"), None, Some(true))
  {
    assert VARIABLE_DEFAULTS[2].0 == "u";
    assert VARIABLE_DEFAULTS[0].0 != "u" && VARIABLE_DEFAULTS[1].0 != "u";
  }

  /** `tr*` is the only pattern key. */
  lemma OnlyTracerPattern(name: string)
    ensures WildcardEntry(VARIABLE_DEFAULTS, name)
            == if StartsWith(name, "tr") then Some(CmapOnly("WhiteBlueGreenYellowRed")) else None
  {
    var t := VARIABLE_DEFAULTS;
    var before := DYNAMICS_DEFAULTS + MICROPHYSICS_DEFAULTS + THERMO_DEFAULTS;
    assert PlainKeys(DYNAMICS_DEFAULTS) && PlainKeys(MICROPHYSICS_DEFAULTS);
    assert PlainKeys(THERMO_DEFAULTS) && PlainKeys(SURFACE_DEFAULTS);
    assert |before| == 23 && t == before + [TRACER_DEFAULT] + SURFACE_DEFAULTS;
    forall i | 0 <= i < |t| && i != 23 ensures '*' !in t[i].0 {
      if i < 8 {
        assert t[i] == DYNAMICS_DEFAULTS[i];
      } else if i < 17 {
        assert t[i] == MICROPHYSICS_DEFAULTS[i - 8];
      } else if i < 23 {
        assert t[i] == THERMO_DEFAULTS[i - 17];
      } else {
        assert t[i] == SURFACE_DEFAULTS[i - 24];
      }
    }
    assert t[23].0 == "tr" + "*";
    GlobPrefixStar(name, "tr");
    if StartsWith(name, "tr") {
      assert PatternMatches(t[23].0, name);
    }
  }

  /** A tracer that is not a listed variable, such as `tr1`, gets the tracer colormap. */
  lemma TracerDefault(name: string)
    requires StartsWith(name, "tr")
    requires forall i :: 0 <= i < |VARIABLE_DEFAULTS| ==> VARIABLE_DEFAULTS[i].0 != name
    ensures GetVariableDefault(name).cmap == Some("WhiteBlueGreenYellowRed")
  {
    OnlyTracerPattern(name);
  }

  /** The doc example: `tr1` is no key of the table, so it falls to the `tr*` pattern. */
  lemma Tr1Default()
    ensures GetVariableDefault("tr1").cmap == Some("WhiteBlueGreenYellowRed")
  {
    assert StartsWith("tr1", "tr");
    TracerDefault("tr1");
  }

  /** `_r` at the end of a name. */
  predicate EndsWithR(s: string)
  {
    |s| >= 2 && s[|s| - 2..] == "_r"
  }

  /** The name-modification fallback: drop a trailing `_r`, or add one. */
  function ToggleR(s: string): (r: string)
    ensures EndsWithR(s) ==> r + "_r" == s
    ensures !EndsWithR(s) ==> r == s + "_r" && EndsWithR(r)
  {
    if EndsWithR(s) then s[..|s| - 2] else s + "_r"
  }

  /**
   * Toggling twice gives the name back, except for a name ending in `_r_r` (or any name
   * whose stripped form still ends in `_r`).
   */
  lemma ToggleRTwice(s: string)
    ensures ToggleR(ToggleR(s)) == s <==> !(EndsWithR(s) && EndsWithR(s[..|s| - 2]))
  {
    if !EndsWithR(s) {
      assert (s + "_r")[..|s|] == s;
    } else if EndsWithR(s[..|s| - 2]) {
      assert |ToggleR(ToggleR(s))| == |s| - 4;
    }
  }

  /** A resolved colormap: still a name, or a library colormap object. */
  datatype Colormap<C> = CmapName(name: string) | CmapObject(obj: C)

  /**
   * The colormap libraries: the NCL attribute lookup (`None` when there is no such
   * colormap or no NCL package, a raise when fetching it fails), matplotlib's `get_cmap`,
   * and `.reversed()`.
   */
  datatype CmapLibrary<!C> = CmapLibrary(
    ncl: string -> Option<Outcome<C>>,
    mplGet: string -> Outcome<C>,
    reversed: C -> Outcome<C>)

  /**
   * Step 1 of `resolve_colormap`: the NCL object when the library has it, else the name.
   * The `hasattr` test already fetches the attribute and lets any error other than a
   * missing attribute through, so a failing fetch raises out of the call; the `try` around
   * the second fetch never catches anything.
   */
  function ResolveNcl<C>(lib: CmapLibrary<C>, name: string): (r: Outcome<Colormap<C>>)
    ensures r.Raises? <==> lib.ncl(name) == Some(Raises)
    ensures r.Returns? && r.value.CmapObject? <==> lib.ncl(name).Some? && lib.ncl(name).value.Returns?
    ensures r.Returns? && r.value.CmapObject? ==> r.value.obj == lib.ncl(name).value.value
    ensures r.Returns? && r.value.CmapName? ==> r.value.name == name
  {
    match lib.ncl(name)
    case None => Returns(CmapName(name))
    case Some(Returns(c)) => Returns(CmapObject(c))
    case Some(Raises) => Raises
  }

  /**
   * `resolve_colormap(cmap_name, reverse)`. A failing NCL fetch raises. Otherwise, without
   * reversal: the NCL object, or the name unchanged. With reversal: the reversed object
   * (via matplotlib for a name); when that raises, a name is toggled with ToggleR and an
   * object is left as it is.
   */
  function ResolveColormap<C>(lib: CmapLibrary<C>, name: string, reverse: bool): (r: Outcome<Colormap<C>>)
    ensures r.Raises? <==> lib.ncl(name) == Some(Raises)
    ensures !reverse ==> r == ResolveNcl(lib, name)
    ensures !reverse && lib.ncl(name).None? ==> r == Returns(CmapName(name))
    ensures reverse && lib.ncl(name).None? ==>
      var o := lib.mplGet(name);
      r == Returns(if o.Returns? && lib.reversed(o.value).Returns? then CmapObject(lib.reversed(o.value).value)
                   else CmapName(ToggleR(name)))
    ensures reverse && lib.ncl(name).Some? && lib.ncl(name).value.Returns? ==>
      var c := lib.ncl(name).value.value;
      var o := lib.reversed(c);
      r == Returns(if o.Returns? then CmapObject(o.value) else CmapObject(c))
    ensures r.Returns? && r.value.CmapName? ==> r.value.name == name || r.value.name == ToggleR(name)
  {
    match ResolveNcl(lib, name)
    case Raises => Raises
    case Returns(cmap) =>
      if !reverse then Returns(cmap)
      else match cmap
        case CmapName(n) =>
          (match lib.mplGet(n)
           case Returns(obj) =>
             (match lib.reversed(obj)
              case Returns(rev) => Returns(CmapObject(rev))
              case Raises => Returns(CmapName(ToggleR(n))))
           case Raises => Returns(CmapName(ToggleR(n))))
        case CmapObject(obj) =>
          (match lib.reversed(obj)
           case Returns(rev) => Returns(CmapObject(rev))
           case Raises => Returns(cmap))
  }

  /** `get_colormap_categories()`: the category table, category names in order. */
  function GetColormapCategories(): (r: seq<(string, seq<string>)>)
    ensures Labels(r) == ["Rainbow", "Earth/Ocean", "MeteoSwiss", "Blue/Red", "Vegetation",
                          "Blue/Green", "Red/Orange", "Gray"]
    ensures r == NCL_CMAP_CATEGORIES
  {
    NCL_CMAP_CATEGORIES
  }

  /** `get_all_colormaps()`: the flattening of the category table. */
  function GetAllColormaps(): (r: seq<string>)
    ensures r == Flatten(GetColormapCategories())
    ensures forall c :: c in r <==> exists i :: 0 <= i < |NCL_CMAP_CATEGORIES| && c in NCL_CMAP_CATEGORIES[i].1
  {
    ALL_NCL_CMAPS
  }
}
