/** The camera-model factory of src/camera_manager.cpp: a process-wide slot
    holding at most one CameraManager, filled by the first Create whose
    configuration names a known model, and the constructor that dispatches on
    the model name and copies in the shared intrinsics. */
module Camera {
  import opened Wrappers

  /** A fixed-size vector as returned by GetVectorFromJson<number_t, 4>. */
  type Vec4 = s: seq<real> | |s| == 4 witness [0.0, 0.0, 0.0, 0.0]

  /** A fixed-size vector as returned by GetVectorFromJson<number_t, 5>. */
  type Vec5 = s: seq<real> | |s| == 5 witness [0.0, 0.0, 0.0, 0.0, 0.0]

  /** The camera configuration document, every key already read into the
      type the constructor reads it as. */
  datatype Config = Config(
    model: string,
    rows: int,
    cols: int,
    fx: real,
    fy: real,
    cx: real,
    cy: real,
    w: real,               // "w": field-of-view coefficient, read for atan/fov
    k0123: Vec4,           // "k0123": read for equidistant
    maxIter: Option<int>,  // "max_iter": optional, read for equidistant
    p01k012: Vec5)         // "p01k012": read for radtan

  /** Image size, focal lengths and principal point, shared by every variant. */
  datatype Intrinsics = Intrinsics(rows: int, cols: int, fx: real, fy: real, cx: real, cy: real)

  /** The closed set of camera models. Unknown is what model_ holds before
      the constructor's dispatch overwrites it. */
  datatype CameraModel =
    | Unknown
    | ATAN(intr: Intrinsics, w: real)
    | EquiDist(intr: Intrinsics, k0: real, k1: real, k2: real, k3: real, maxIter: int)
    | RadTan(intr: Intrinsics, p0: real, p1: real, k0: real, k1: real, k2: real)
    | Pinhole(intr: Intrinsics)

  /** Symbolic stand-ins for ATAN::DIM, EquiDist::DIM, RadTan::DIM and
      Pinhole::DIM; their numeric values are in camera headers that are not
      part of this model. That the four constants differ is not claimed: no
      contract compares two of them. */
  datatype Dim = AtanDim | EquiDistDim | RadTanDim | PinholeDim

  /** std::invalid_argument and its message. */
  datatype CameraError = InvalidArgument(message: string)

  const InvalidModelMessage := "invalid camera model"

  /** The iteration bound of the equidistant model when max_iter is absent. */
  const DefaultMaxIter := 15

  /** Every model name the constructor accepts. */
  const SupportedNames: set<string> := {"atan", "fov", "equidistant", "radtan", "pinhole"}

  /** The model names that select the variant of `m`. */
  function NamesOf(m: CameraModel): set<string> {
    match m
    case Unknown => {}
    case ATAN(_, _) => {"atan", "fov"}
    case EquiDist(_, _, _, _, _, _) => {"equidistant"}
    case RadTan(_, _, _, _, _, _) => {"radtan"}
    case Pinhole(_) => {"pinhole"}
  }

  /** The DIM constant of a known variant. */
  function DimOf(m: CameraModel): Dim
    requires !m.Unknown?
  {
    match m
    case ATAN(_, _) => AtanDim
    case EquiDist(_, _, _, _, _, _) => EquiDistDim
    case RadTan(_, _, _, _, _, _) => RadTanDim
    case Pinhole(_) => PinholeDim
  }

  /** The model-specific coefficients a variant carries, in declaration order. */
  function Distortion(m: CameraModel): seq<real> {
    match m
    case Unknown => []
    case ATAN(_, w) => [w]
    case EquiDist(_, k0, k1, k2, k3, _) => [k0, k1, k2, k3]
    case RadTan(_, p0, p1, k0, k1, k2) => [p0, p1, k0, k1, k2]
    case Pinhole(_) => []
  }

  function IntrinsicsOf(cfg: Config): Intrinsics {
    Intrinsics(cfg.rows, cfg.cols, cfg.fx, cfg.fy, cfg.cx, cfg.cy)
  }

  /** The variant the constructor builds from `cfg`, or the exception it
      throws. The name alone decides the variant: an unknown name fails and
      never falls back to Pinhole. */
  function VariantOf(cfg: Config): (r: Result<CameraModel, CameraError>)
    ensures r.Success? <==> cfg.model in SupportedNames
    ensures r.Failure? ==> r.error == InvalidArgument(InvalidModelMessage)
    ensures r.Success? ==> !r.value.Unknown? && cfg.model in NamesOf(r.value)
    ensures r.Success? ==> r.value.intr == IntrinsicsOf(cfg)
    ensures r.Success? && r.value.ATAN? ==> Distortion(r.value) == [cfg.w]
    ensures r.Success? && r.value.EquiDist? ==>
      Distortion(r.value) == cfg.k0123 && r.value.maxIter == cfg.maxIter.GetOr(DefaultMaxIter)
    ensures r.Success? && r.value.RadTan? ==> Distortion(r.value) == cfg.p01k012
    ensures r.Success? && r.value.Pinhole? ==> Distortion(r.value) == []
  {
    var intr := IntrinsicsOf(cfg);
    if cfg.model == "atan" || cfg.model == "fov" then
      Success(ATAN(intr, cfg.w))
    else if cfg.model == "equidistant" then
      var k := cfg.k0123;
      Success(EquiDist(intr, k[0], k[1], k[2], k[3], cfg.maxIter.GetOr(DefaultMaxIter)))
    else if cfg.model == "radtan" then
      var p := cfg.p01k012;
      Success(RadTan(intr, p[0], p[1], p[2], p[3], p[4]))
    else if cfg.model == "pinhole" then
      Success(Pinhole(intr))
    else
      Failure(InvalidArgument(InvalidModelMessage))
  }

  /** A configuration that selects `m`, the inverse direction of VariantOf. */
  function ConfigFor(m: CameraModel): Config
    requires !m.Unknown?
  {
    var i := m.intr;
    var zeros4: Vec4 := [0.0, 0.0, 0.0, 0.0];
    var zeros5: Vec5 := [0.0, 0.0, 0.0, 0.0, 0.0];
    match m
    case ATAN(_, w) =>
      Config("atan", i.rows, i.cols, i.fx, i.fy, i.cx, i.cy, w, zeros4, None, zeros5)
    case EquiDist(_, k0, k1, k2, k3, maxIter) =>
      Config("equidistant", i.rows, i.cols, i.fx, i.fy, i.cx, i.cy, 0.0, [k0, k1, k2, k3], Some(maxIter), zeros5)
    case RadTan(_, p0, p1, k0, k1, k2) =>
      Config("radtan", i.rows, i.cols, i.fx, i.fy, i.cx, i.cy, 0.0, zeros4, None, [p0, p1, k0, k1, k2])
    case Pinhole(_) =>
      Config("pinhole", i.rows, i.cols, i.fx, i.fy, i.cx, i.cy, 0.0, zeros4, None, zeros5)
  }

  /** Every known variant can be configured: VariantOf inverts ConfigFor. */
  lemma VariantOfConfigFor(m: CameraModel)
    requires !m.Unknown?
    ensures VariantOf(ConfigFor(m)) == Success(m)
  {
    match m
    case ATAN(_, _) =>
    case EquiDist(_, _, _, _, _, _) =>
    case RadTan(_, _, _, _, _, _) =>
    case Pinhole(_) =>
  }

  /** The keys the constructor reads for the model name of `a`, equal in `b`. */
  predicate AgreeOnReadKeys(a: Config, b: Config) {
    && a.model == b.model
    && IntrinsicsOf(a) == IntrinsicsOf(b)
    && ((a.model == "atan" || a.model == "fov") ==> a.w == b.w)
    && (a.model == "equidistant" ==>
          a.k0123 == b.k0123 && a.maxIter.GetOr(DefaultMaxIter) == b.maxIter.GetOr(DefaultMaxIter))
    && (a.model == "radtan" ==> a.p01k012 == b.p01k012)
  }

  /** The constructor reads nothing but the model name, the intrinsics and
      the keys of the selected variant. */
  lemma SameReadKeysSameVariant(a: Config, b: Config)
    requires AgreeOnReadKeys(a, b)
    ensures VariantOf(a) == VariantOf(b)
  {
  }

  /** v is fl_ = 0.5 * sqrt(fx * fx + fy * fy), stated by its square. */
  predicate IsMeanFocal(v: real, fx: real, fy: real) {
    v >= 0.0 && v * v == 0.25 * (fx * fx + fy * fy)
  }

  /** At most one real is fl_ for given focal lengths. */
  lemma MeanFocalUnique(u: real, v: real, fx: real, fy: real)
    requires IsMeanFocal(u, fx, fy) && IsMeanFocal(v, fx, fy)
    ensures u == v
  {
    SquareMonotone(u, v);
    SquareMonotone(v, u);
  }

  function Abs(x: real): real {
    if x < 0.0 then -x else x
  }

  /** fl_ lies between half the larger focal length and half their sum. */
  lemma MeanFocalBounds(fl: real, fx: real, fy: real)
    requires IsMeanFocal(fl, fx, fy)
    ensures Abs(fx) <= 2.0 * fl && Abs(fy) <= 2.0 * fl
    ensures 2.0 * fl <= Abs(fx) + Abs(fy)
  {
    var d, a, b := 2.0 * fl, Abs(fx), Abs(fy);
    assert d * d == a * a + b * b;
    SquareMonotone(a, d);
    SquareMonotone(b, d);
    assert (a + b) * (a + b) == d * d + 2.0 * a * b;
    assert a * b >= 0.0;
    SquareMonotone(d, a + b);
  }

  /** For non-negative reals, comparing squares compares the numbers. */
  lemma SquareMonotone(x: real, y: real)
    requires x >= 0.0 && y >= 0.0 && x * x <= y * y
    ensures x <= y
  {
    if x > y {
      SquareStrict(y, x);
    }
  }

  lemma SquareStrict(x: real, y: real)
    requires 0.0 <= x < y
    ensures x * x < y * y
  {
    assert x * (y - x) >= 0.0;
    assert y * (y - x) > 0.0;
  }

  /** The length of the vector the radtan branch asks GetVectorFromJson for,
      as the code is written. */
  const RadTanRequestedLength := 4

  /** The radtan branch as written: it reads five coefficients, p01k012[0]
      to p01k012[4], so the vector needs at least five entries. */
  function RadTanAsWritten(intr: Intrinsics, p01k012: seq<real>): (m: CameraModel)
    requires |p01k012| >= 5
    ensures m.RadTan? && m.intr == intr && Distortion(m) == p01k012[..5]
  {
    RadTan(intr, p01k012[0], p01k012[1], p01k012[2], p01k012[3], p01k012[4])
  }

  /** A vector of the requested length never meets RadTanAsWritten's
      precondition: the read of p01k012[4] is one past its end. */
  lemma RadTanRequestedVectorTooShort(p01k012: seq<real>)
    requires |p01k012| == RadTanRequestedLength
    ensures !(|p01k012| >= 5)
  {
  }

  /** One constructed camera model: its variant, DIM and the intrinsics
      copied out of the configuration. */
  class CameraManager {
    var model: CameraModel
    var dim: Dim
    var rows: int
    var cols: int
    var fx: real
    var fy: real
    var cx: real
    var cy: real
    /** fl_ kept by its square: Valid() makes fl_ the v with
        IsMeanFocal(v, fx, fy), unique by MeanFocalUnique. */
    var flSq: real

    /** A built manager: a known variant whose DIM and intrinsics agree
        with the copied fields. */
    ghost predicate Valid()
      reads this
    {
      && !model.Unknown?
      && dim == DimOf(model)
      && model.intr == Intrinsics(rows, cols, fx, fy, cx, cy)
      && flSq == 0.25 * (fx * fx + fy * fy)
    }

    /** This manager is what the constructor builds from `cfg`. */
    ghost predicate BuiltFrom(cfg: Config)
      reads this
    {
      Valid() && VariantOf(cfg) == Success(model)
    }

    /** The constructor for a configuration whose model name is known; the
        name check that throws is done by Create, since it happens before
        the instance could be assigned. */
    constructor (cfg: Config)
      requires cfg.model in SupportedNames
      ensures BuiltFrom(cfg)
      ensures rows == cfg.rows && cols == cfg.cols
      ensures fx == cfg.fx && fy == cfg.fy && cx == cfg.cx && cy == cfg.cy
    {
      var name := cfg.model;
      var intr := Intrinsics(cfg.rows, cfg.cols, cfg.fx, cfg.fy, cfg.cx, cfg.cy);
      model := Unknown;
      if name == "atan" || name == "fov" {
        model := ATAN(intr, cfg.w);
        dim := AtanDim;
      } else if name == "equidistant" {
        var k0123 := cfg.k0123;
        var maxIter := cfg.maxIter.GetOr(DefaultMaxIter);
        model := EquiDist(intr, k0123[0], k0123[1], k0123[2], k0123[3], maxIter);
        dim := EquiDistDim;
      } else if name == "radtan" {
        var p01k012 := cfg.p01k012;
        model := RadTan(intr, p01k012[0], p01k012[1], p01k012[2], p01k012[3], p01k012[4]);
        dim := RadTanDim;
      } else if name == "pinhole" {
        model := Pinhole(intr);
        dim := PinholeDim;
      } else {
        assert false;
      }
      rows := cfg.rows;
      cols := cfg.cols;
      fx := cfg.fx;
      fy := cfg.fy;
      cx := cfg.cx;
      cy := cfg.cy;
      flSq := 0.25 * (cfg.fx * cfg.fx + cfg.fy * cfg.fy);
    }
  }

  /** The static member instance_ of CameraManager. */
  class CameraManagerStatics {
    var instance: Option<CameraManager>

    ghost predicate Valid()
      reads this, if instance.Some? then {instance.value} else {}
    {
      instance.Some? ==> instance.value.Valid()
    }

    /** Static initialisation: instance_ starts as nullptr. */
    constructor ()
      ensures Valid() && instance == None
    {
      instance := None;
    }

    /** CameraManager::Create: build the manager on the first call that
        succeeds, and return the stored one on every later call, ignoring
        `cfg`. A throwing construction stores nothing. */
    method Create(cfg: Config) returns (r: Result<CameraManager, CameraError>)
      requires Valid()
      modifies this
      ensures Valid()
      ensures r.Success? ==> instance == Some(r.value)
      ensures old(instance).Some? ==> instance == old(instance) && r == Success(old(instance).value)
      ensures old(instance).None? && cfg.model in SupportedNames ==>
        r.Success? && fresh(r.value) && r.value.BuiltFrom(cfg)
      ensures old(instance).None? && cfg.model !in SupportedNames ==>
        instance == None && r == Failure(InvalidArgument(InvalidModelMessage))
    {
      if instance.None? {
        var variant := VariantOf(cfg);
        if variant.Failure? {
          // the constructor throws before instance_ is assigned
          return Failure(variant.error);
        }
        var m := new CameraManager(cfg);
        instance := Some(m);
      }
      r := Success(instance.value);
    }
  }

  /** Two Create calls in a row: once a call succeeds the next returns the
      same manager whatever its configuration, and after a call that throws
      the next one builds from its own configuration. */
  method CreateTwice(statics: CameraManagerStatics, first: Config, second: Config)
      returns (a: Result<CameraManager, CameraError>, b: Result<CameraManager, CameraError>)
    requires statics.Valid() && statics.instance.None?
    modifies statics
    ensures a.Success? ==> b == a && a.value.BuiltFrom(first)
    ensures a.Failure? ==> (b.Success? <==> second.model in SupportedNames)
    ensures a.Failure? && b.Success? ==> b.value.BuiltFrom(second) && statics.instance == Some(b.value)
    ensures a.Failure? <==> first.model !in SupportedNames
  {
    a := statics.Create(first);
    b := statics.Create(second);
  }
}
