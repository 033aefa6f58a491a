/**
 * The domain accessor objects `OriginCfg` and `SynthCfg`.
 *
 * Both are built from a mapping alone, so their file name is None and
 * every failure of a getter reaches them as a `TypeError`, never as an
 * abort. Each accessor is a fixed call into a getter; the plain ones are
 * grouped here into enumerations with their key tables. A few `SynthCfg`
 * accessors catch the `TypeError` and return a literal instead, and the
 * per-segment ones read the key `<stem>_<i>`.
 */
module DomainCfg {
  import opened Outcomes
  import opened Builtins
  import opened ConfigObject
  import PyText

  /** The object a domain subclass builds: no file name. */
  function Accessor(dict: map<string, string>): (c: ConfigObj)
    ensures c.fileName.None? && c.dict == dict
  {
    ConfigObj(None, dict)
  }

  /** `except TypeError: return fallback` around a getter. */
  function CatchTypeError<T>(r: Outcome<T>, fallback: T): (s: Outcome<T>)
    ensures s.Ok? <==> r.Ok? || r.TypeErr?
    ensures r.Ok? ==> s == r
    ensures r.TypeErr? ==> s == Ok(fallback)
    ensures !r.Ok? && !r.TypeErr? ==> s == r
  {
    if r.TypeErr? then Ok(fallback) else r
  }

  /** A float outcome as a value outcome, every failure kept as it is. */
  function AsFloatValue(r: Outcome<real>): (s: Outcome<Value>)
    ensures s.Ok? <==> r.Ok?
    ensures r.Ok? ==> s.value == FloatV(r.value)
    ensures !r.Ok? ==> s == r.PropagateFailure()
  {
    if r.Ok? then Ok(FloatV(r.value)) else r.PropagateFailure()
  }

  /** `name + "_" + str(i)`, the key of a per-segment accessor. */
  function IndexedKey(stem: string, i: int): (k: string)
    ensures |k| == |stem| + 1 + |PyText.IntStr(i)|
    ensures k[..|stem|] == stem && k[|stem|] == '_'
    ensures k[|stem| + 1..] == PyText.IntStr(i)
  {
    stem + "_" + PyText.IntStr(i)
  }

  // ---------------------------------------------------------------- OriginCfg

  /** `strike`, `dip` and `rake`: angles with a caller-supplied default. */
  datatype Angle = Strike | Dip | Rake

  function AngleKey(a: Angle): string {
    match a
    case Strike => "strike"
    case Dip => "dip"
    case Rake => "rake"
  }

  /** `lat`, `lon` and `depth`: required coordinates. */
  datatype Place = Lat | Lon | Depth

  function PlaceKey(p: Place): string {
    match p
    case Lat => "lat"
    case Lon => "lon"
    case Depth => "depth"
  }

  datatype OriginCfg = OriginCfg(dict: map<string, string>) {

    /** `strike(def1)`, `dip(def1)`, `rake(def1)` */
    function Angle(b: Builtins, a: Angle, def1: Option<Value>): (r: Outcome<real>)
      ensures !r.Ok? ==> r.TypeErr?
      ensures AngleKey(a) in dict ==>
                (r.Ok? <==> FloatDefaultOk(b, def1) && b.isNumber(Str(dict[AngleKey(a)])))
      ensures AngleKey(a) in dict && r.Ok? ==> r.value == b.toFloat(Str(dict[AngleKey(a)]))
      ensures AngleKey(a) !in dict && def1.None? ==> r.TypeErr?
      ensures !FloatDefaultOk(b, def1) ==> r.TypeErr?
      ensures AngleKey(a) !in dict && def1.Some? ==>
                (r.Ok? <==> b.isNumber(def1.value) && b.isNumber(FloatV(b.toFloat(def1.value))))
      ensures AngleKey(a) !in dict && def1.Some? && r.Ok? ==> r.value == b.toFloat(FloatV(b.toFloat(def1.value)))
    {
      Accessor(dict).Float(b, AngleKey(a), def1)
    }

    /** `lat()`, `lon()`, `depth()` */
    function Place(b: Builtins, p: Place): (r: Outcome<real>)
      ensures !r.Ok? ==> r.TypeErr?
      ensures r.Ok? <==> PlaceKey(p) in dict && b.isNumber(Str(dict[PlaceKey(p)]))
      ensures r.Ok? ==> r.value == b.toFloat(Str(dict[PlaceKey(p)]))
    {
      Accessor(dict).Float(b, PlaceKey(p), None)
    }

    /** `time()`: the stored text. */
    function Time(): (r: Outcome<Value>)
      ensures !r.Ok? ==> r.TypeErr?
      ensures r.Ok? <==> "time" in dict
      ensures r.Ok? ==> r.value == Str(dict["time"])
    {
      Accessor(dict).String("time", None)
    }
  }

  // ----------------------------------------------------------------- SynthCfg

  /** The `SynthCfg` accessors that read one fixed key with `Float`. */
  datatype SynthParam =
    | Lat0 | Lon0 | NorthShift0 | EastShift0 | Strike0 | Dip0 | Rake0
    | Length0 | Width0 | DepthSyn0 | NucleationX0 | NucleationY0 | Slip0 | Velocity0
    | Rmnn | Rmee | Rmdd | Rmne | Rmnd | Rmed | Duration | Magnitude0
    | Mag0Low | Mag0High | Dip0Low | Dip0High | Depth0Low | Depth0High
    | Rake0Low | Rake0High | Strike0Low | Strike0High
    | NorthShift0Low | NorthShift0High | EastShift0Low | EastShift0High
    | Time0Low | Time0High

  function ParamKey(p: SynthParam): string {
    match p
    case Lat0 => "lat_0"
    case Lon0 => "lon_0"
    case NorthShift0 => "north_shift_0"
    case EastShift0 => "east_shift_0"
    case Strike0 => "strike_0"
    case Dip0 => "dip_0"
    case Rake0 => "rake_0"
    case Length0 => "length_0"
    case Width0 => "width_0"
    case DepthSyn0 => "depth_0"
    case NucleationX0 => "nucleation_x_0"
    case NucleationY0 => "nucleation_y_0"
    case Slip0 => "slip_0"
    case Velocity0 => "velocity_0"
    case Rmnn => "rmnn"
    case Rmee => "rmee"
    case Rmdd => "rmdd"
    case Rmne => "rmne"
    case Rmnd => "rmnd"
    case Rmed => "rmed"
    case Duration => "duration"
    case Magnitude0 => "magnitude_0"
    case Mag0Low => "mag_low_0"
    case Mag0High => "mag_high_0"
    case Dip0Low => "dip_low_0"
    case Dip0High => "dip_high_0"
    case Depth0Low => "depth_low_0"
    case Depth0High => "depth_high_0"
    case Rake0Low => "rake_low_0"
    case Rake0High => "rake_high_0"
    case Strike0Low => "strike_low_0"
    case Strike0High => "strike_high_0"
    case NorthShift0Low => "north_shift_low_0"
    case NorthShift0High => "north_shift_high_0"
    case EastShift0Low => "east_shift_low_0"
    case EastShift0High => "east_shift_high_0"
    case Time0Low => "time_low_0"
    case Time0High => "time_high_0"
  }

  /** The literal an accessor returns when `Float` raises `TypeError`. */
  function SoftDefault(p: SynthParam): Option<real> {
    match p
    case NorthShift0 => Some(0.0)
    case EastShift0 => Some(0.0)
    case NucleationX0 => Some(0.0)
    case NucleationY0 => Some(0.0)
    case Velocity0 => Some(3500.0)
    case _ => None
  }

  /** The `SynthCfg` accessors that read one fixed key with `String`/`Str`. */
  datatype SynthText = Time0 | StoreSuperdirs | Store | Source | Stf

  function TextKey(t: SynthText): string {
    match t
    case Time0 => "time_0"
    case StoreSuperdirs => "store_superdirs"
    case Store => "store"
    case Source => "source"
    case Stf => "stf"
  }

  /** The per-segment accessors `<name>_1(i)`, which read `<stem>_<i>` with `Float`. */
  datatype SegmentParam =
    | Lat1 | Lon1 | NorthShift1 | EastShift1 | Strike1 | DepthSyn1 | Dip1
    | Rake1 | Length1 | Width1 | NucleationX1 | NucleationY1 | Slip1 | Magnitude1

  function Stem(s: SegmentParam): string {
    match s
    case Lat1 => "lat"
    case Lon1 => "lon"
    case NorthShift1 => "north_shift"
    case EastShift1 => "east_shift"
    case Strike1 => "strike"
    case DepthSyn1 => "depth"
    case Dip1 => "dip"
    case Rake1 => "rake"
    case Length1 => "length"
    case Width1 => "width"
    case NucleationX1 => "nucleation_x"
    case NucleationY1 => "nucleation_y"
    case Slip1 => "slip"
    case Magnitude1 => "magnitude"
  }

  /** The fixed-key accessor that reads the same key as segment 0. */
  function SegmentZero(s: SegmentParam): SynthParam {
    match s
    case Lat1 => Lat0
    case Lon1 => Lon0
    case NorthShift1 => NorthShift0
    case EastShift1 => EastShift0
    case Strike1 => Strike0
    case DepthSyn1 => DepthSyn0
    case Dip1 => Dip0
    case Rake1 => Rake0
    case Length1 => Length0
    case Width1 => Width0
    case NucleationX1 => NucleationX0
    case NucleationY1 => NucleationY0
    case Slip1 => Slip0
    case Magnitude1 => Magnitude0
  }

  datatype SynthCfg = SynthCfg(dict: map<string, string>) {

    /** The fixed-key `Float` accessors, with the soft default where the
        source catches `TypeError`. */
    function Param(b: Builtins, p: SynthParam): (r: Outcome<real>)
      ensures !r.Ok? ==> r.TypeErr?
      ensures r.Ok? <==> SoftDefault(p).Some? || (ParamKey(p) in dict && b.isNumber(Str(dict[ParamKey(p)])))
      ensures ParamKey(p) in dict && b.isNumber(Str(dict[ParamKey(p)]))
              ==> r == Ok(b.toFloat(Str(dict[ParamKey(p)])))
      ensures SoftDefault(p).Some? && !(ParamKey(p) in dict && b.isNumber(Str(dict[ParamKey(p)])))
              ==> r == Ok(SoftDefault(p).value)
    {
      var r := Accessor(dict).Float(b, ParamKey(p), None);
      match SoftDefault(p)
      case None => r
      case Some(x) => CatchTypeError(r, x)
    }

    /** `anchor()`: reads the key with `Float` and falls back to `'top'`,
        so a textual anchor such as `bottom` is never returned. */
    function Anchor(b: Builtins): (r: Outcome<Value>)
      ensures r.Ok?
      ensures "anchor" in dict && b.isNumber(Str(dict["anchor"])) ==> r.value == FloatV(b.toFloat(Str(dict["anchor"])))
      ensures !("anchor" in dict && b.isNumber(Str(dict["anchor"]))) ==> r.value == Str("top")
    {
      CatchTypeError(AsFloatValue(Accessor(dict).Float(b, "anchor", None)), Str("top"))
    }

    /** The anchor as evidently intended: the stored text, `'top'` when absent. */
    function AnchorIntended(): (r: Outcome<Value>)
      ensures r.Ok?
      ensures "anchor" in dict ==> r.value == Str(dict["anchor"])
      ensures "anchor" !in dict ==> r.value == Str("top")
    {
      Accessor(dict).String("anchor", Some(Str("top")))
    }

    /** `time_0()`, `store_superdirs()`, `store()`, `source()`, `stf()` */
    function Text(t: SynthText): (r: Outcome<Value>)
      ensures !r.Ok? ==> r.TypeErr?
      ensures r.Ok? <==> TextKey(t) in dict
      ensures r.Ok? ==> r.value == Str(dict[TextKey(t)])
    {
      Accessor(dict).String(TextKey(t), None)
    }

    /** `use_specific_stf()`: a required 0/1 flag. */
    function UseSpecificStf(b: Builtins): (r: Outcome<bool>)
      ensures !r.Ok? ==> r.TypeErr?
      ensures r.Ok? <==> "use_specific_stf" in dict && IsIntValue(b, Str(dict["use_specific_stf"]))
                         && b.toInt(Str(dict["use_specific_stf"])) in {0, 1}
      ensures r.Ok? ==> (r.value <==> b.toInt(Str(dict["use_specific_stf"])) == 1)
    {
      Accessor(dict).Bool(b, "use_specific_stf", None)
    }

    /** `nsources()`: a required integer. */
    function NSources(b: Builtins): (r: Outcome<int>)
      ensures !r.Ok? ==> r.TypeErr?
      ensures r.Ok? <==> "nsources" in dict && IsIntValue(b, Str(dict["nsources"]))
      ensures r.Ok? ==> r.value == b.toInt(Str(dict["nsources"]))
    {
      Accessor(dict).Int(b, "nsources", None)
    }

    /** `lat_1(i)` … `magnitude_1(i)`: `Float` of the key `<stem>_<i>`, with no soft default. */
    function Segment(b: Builtins, s: SegmentParam, i: int): (r: Outcome<real>)
      ensures !r.Ok? ==> r.TypeErr?
      ensures r.Ok? <==> IndexedKey(Stem(s), i) in dict && b.isNumber(Str(dict[IndexedKey(Stem(s), i)]))
      ensures r.Ok? ==> r.value == b.toFloat(Str(dict[IndexedKey(Stem(s), i)]))
    {
      Accessor(dict).Float(b, IndexedKey(Stem(s), i), None)
    }

    /** `time_1(i)`: the text of the key `time_<i>`. */
    function Time1(i: int): (r: Outcome<Value>)
      ensures !r.Ok? ==> r.TypeErr?
      ensures r.Ok? <==> IndexedKey("time", i) in dict
      ensures r.Ok? ==> r.value == Str(dict[IndexedKey("time", i)])
    {
      Accessor(dict).String(IndexedKey("time", i), None)
    }
  }
}

/** What the key tables of the domain accessors guarantee. */
module DomainFacts {
  import opened Outcomes
  import opened Builtins
  import opened DomainCfg
  import ConfigFacts
  import PyText

  lemma StemInjective(s1: SegmentParam, s2: SegmentParam)
    requires Stem(s1) == Stem(s2)
    ensures s1 == s2
  {
  }

  /** Without a stored angle, a numeric caller default is returned as
      `float(def1)`. */
  lemma AngleAbsentKeyGivesDefault(o: OriginCfg, b: Builtins, a: Angle, d: Value)
    requires Sound(b)
    requires AngleKey(a) !in o.dict && b.isNumber(d)
    ensures o.Angle(b, a, Some(d)) == Ok(b.toFloat(d))
  {
    ConfigFacts.FloatAbsentKeyGivesDefault(Accessor(o.dict), b, AngleKey(a), d);
  }

  /** Position of the last `ch` in `s`, or -1. */
  function LastIndexOf(s: string, ch: char): (i: int)
    ensures -1 <= i < |s|
    ensures 0 <= i ==> s[i] == ch
    ensures forall k :: i < k < |s| ==> s[k] != ch
  {
    if s == [] then -1
    else if s[|s| - 1] == ch then |s| - 1
    else LastIndexOf(s[..|s| - 1], ch)
  }

  /** In `a + "_" + x`, with no `_` in `x`, the last `_` is the one after `a`. */
  lemma {:induction false} LastUnderscoreEndsPrefix(a: string, x: string)
    requires forall k :: 0 <= k < |x| ==> x[k] != '_'
    ensures LastIndexOf(a + "_" + x, '_') == |a|
    decreases |x|
  {
    var s := a + "_" + x;
    if x != [] {
      assert s[..|s| - 1] == a + "_" + x[..|x| - 1];
      LastUnderscoreEndsPrefix(a, x[..|x| - 1]);
    }
  }

  /** `a + "_" + x` splits at its last `_` when `x` holds none. */
  lemma SplitAtLastUnderscore(a: string, x: string, c: string, y: string)
    requires a + "_" + x == c + "_" + y
    requires forall k :: 0 <= k < |x| ==> x[k] != '_'
    requires forall k :: 0 <= k < |y| ==> y[k] != '_'
    ensures a == c && x == y
  {
    var k := a + "_" + x;
    LastUnderscoreEndsPrefix(a, x);
    LastUnderscoreEndsPrefix(c, y);
    assert a == k[..|a|] == c;
    assert x == k[|a| + 1..] == y;
  }

  /** No two (accessor, segment) pairs read the same key: the last `_`
      of a key ends the stem, because `str(i)` holds no `_`. */
  lemma IndexedKeyInjective(s1: SegmentParam, i: int, s2: SegmentParam, j: int)
    requires IndexedKey(Stem(s1), i) == IndexedKey(Stem(s2), j)
    ensures s1 == s2 && i == j
  {
    SplitAtLastUnderscore(Stem(s1), PyText.IntStr(i), Stem(s2), PyText.IntStr(j));
    StemInjective(s1, s2);
    PyText.IntStrInjective(i, j);
  }

  /** Segment 0 of a per-segment accessor reads the key of the matching
      `_0` accessor. */
  lemma SegmentZeroKey(s: SegmentParam)
    ensures IndexedKey(Stem(s), 0) == ParamKey(SegmentZero(s))
  {
    assert PyText.IntStr(0) == "0";
  }

  /** Segment 0 agrees with the `_0` accessor whenever it yields a value;
      they differ only where the `_0` accessor substitutes its soft
      default for a `TypeError`. */
  lemma SegmentZeroAgrees(c: SynthCfg, b: Builtins, s: SegmentParam)
    ensures c.Segment(b, s, 0).Ok? ==> c.Segment(b, s, 0) == c.Param(b, SegmentZero(s))
    ensures SoftDefault(SegmentZero(s)).None? ==> c.Segment(b, s, 0) == c.Param(b, SegmentZero(s))
    ensures !c.Segment(b, s, 0).Ok? && SoftDefault(SegmentZero(s)).Some?
            ==> c.Segment(b, s, 0) == TypeErr && c.Param(b, SegmentZero(s)) == Ok(SoftDefault(SegmentZero(s)).value)
  {
    SegmentZeroKey(s);
  }

  /** `time_1(0)` and `time_0()` read the same key. */
  lemma TimeZeroAgrees(c: SynthCfg)
    ensures c.Time1(0) == c.Text(Time0)
  {
    assert PyText.IntStr(0) == "0";
    assert IndexedKey("time", 0) == "time_0";
  }

  /** A stored textual anchor other than `top` is lost by `anchor()`. */
  lemma AnchorDropsText(c: SynthCfg, b: Builtins)
    requires "anchor" in c.dict && !b.isNumber(Str(c.dict["anchor"])) && c.dict["anchor"] != "top"
    ensures c.Anchor(b) == Ok(Str("top"))
    ensures c.AnchorIntended() == Ok(Str(c.dict["anchor"])) != c.Anchor(b)
  {
  }
}
