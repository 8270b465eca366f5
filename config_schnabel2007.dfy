/**
 * Tuning parameters of the octree RANSAC shape detector (`ConfigSchnabel2007`): the field
 * defaults, the consistency guard `checkConfig`, and `createDefault`, which validates the
 * requested shape kinds and optional per-shape checks and assembles one shape description per kind.
 *
 * The georegression model managers, distances, generators, fitters and codecs are opaque
 * per-kind tags carrying the constructor arguments the source passes them.
 */
module ConfigSchnabel2007 {
  import opened Wrappers

  /**
   * A constant of the shape-kind enumeration. `OtherKind` stands for any constant besides
   * SPHERE, CYLINDER and PLANE, which `createDefault` has no case for.
   */
  datatype ShapeKind = Sphere | Cylinder | Plane | OtherKind(name: string)

  predicate Supported(kind: ShapeKind) {
    kind.Sphere? || kind.Cylinder? || kind.Plane?
  }

  /** A caller-supplied check on a shape's parameters, identified only by a tag. */
  datatype Check = Check(tag: nat)

  datatype ModelManager = SphereManager | CylinderManager | PlaneGeneralManager

  datatype ModelDistance =
    | SphereDistance(angleTolerance: real)
    | CylinderDistance(angleTolerance: real)
    | PlaneDistance(angleTolerance: real)

  /** A minimal-sample generator; `check` is what `setCheck` installed, if anything. */
  datatype ModelGenerator =
    | SphereGenerator(angleTolerance: real, distanceTolerance: real, check: Option<Check>)
    | CylinderGenerator(angleTolerance: real, distanceTolerance: real, check: Option<Check>)
    | PlaneGenerator(angleTolerance: real, check: Option<Check>)

  /** A least-squares refinement wrapped for point-vector input. */
  datatype ModelFitter = SphereFitter(maxIterations: int) | CylinderFitter(maxIterations: int) | PlaneSvdFitter

  datatype Codec = SphereCodec | CylinderCodec | PlaneGeneralCodec

  datatype ShapeDescription = ShapeDescription(
    modelManager: ModelManager,
    modelDistance: ModelDistance,
    modelGenerator: ModelGenerator,
    modelFitter: ModelFitter,
    codec: Codec,
    thresholdFit: real)

  /** The four numeric arguments of `createDefault`. */
  datatype Tolerances = Tolerances(
    fitIterations: int,
    angleTolerance: real,
    distanceTolerance: real,
    ransacDistanceThreshold: real)

  datatype ConfigError =
    | ChecksWithoutShapes
    | ChecksLengthMismatch
    | UnsupportedShape(kind: ShapeKind)
    | OctreeSplitBelowMinAccept

  /** The configuration object. `models` is `None` until a list of descriptions is assigned. */
  datatype Config = Config(
    models: Option<seq<ShapeDescription>>,
    localFitMaxIterations: int,
    localFitChangeThreshold: real,
    octreeSplit: int,
    minModelAccept: int,
    ransacExtension: int,
    maximumAllowedIterations: int,
    randomSeed: int)

  /**
   * The value of a Java `int` literal written with the 32-bit pattern `bits`: the two's-complement
   * reading of the pattern, which is what a `long` field initialised with it receives.
   */
  function IntLiteral(bits: nat): (v: int)
    requires bits < 0x1_0000_0000
    ensures -0x8000_0000 <= v < 0x8000_0000
    ensures (v - bits) % 0x1_0000_0000 == 0
  {
    if bits < 0x8000_0000 then bits else bits - 0x1_0000_0000
  }

  /** A freshly constructed configuration: the field initialisers. */
  function DefaultConfig(): (c: Config)
    ensures c.models.None?
    ensures c.localFitMaxIterations == 100 && c.localFitChangeThreshold == 0.00000001
    ensures c.octreeSplit == 100 && c.minModelAccept == 50
    ensures c.ransacExtension == 15 && c.maximumAllowedIterations == 1000
    ensures c.randomSeed == IntLiteral(0xDEAD_BEEF)
  {
    Config(
      models := None,
      localFitMaxIterations := 100,
      localFitChangeThreshold := 0.00000001,
      octreeSplit := 100,
      minModelAccept := 50,
      ransacExtension := 15,
      maximumAllowedIterations := 1000,
      randomSeed := IntLiteral(0xDEAD_BEEF))
  }

  /** The default seed is the negative value of the 32-bit literal, not the unsigned 3735928559. */
  lemma DefaultSeed()
    ensures DefaultConfig().randomSeed == -559038737
    ensures DefaultConfig().randomSeed != 0xDEAD_BEEF
  {
  }

  /** `checkConfig`: fails exactly when the octree split threshold is below the minimum accepted inlier count. */
  function CheckConfig(c: Config): (r: Outcome<ConfigError>)
    ensures r.Pass? <==> c.minModelAccept <= c.octreeSplit
    ensures r.Fail? ==> r.error == OctreeSplitBelowMinAccept
  {
    if c.octreeSplit < c.minModelAccept then Fail(OctreeSplitBelowMinAccept) else Pass
  }

  /** The default configuration passes `checkConfig`. */
  lemma DefaultPassesCheck()
    ensures CheckConfig(DefaultConfig()).Pass?
  {
  }

  /** The shape kind every component of a description belongs to, if they all agree on one. */
  function KindOf(d: ShapeDescription): Option<ShapeKind> {
    if d.modelManager.SphereManager? && d.modelDistance.SphereDistance? && d.modelGenerator.SphereGenerator?
       && d.modelFitter.SphereFitter? && d.codec.SphereCodec?
    then Some(Sphere)
    else if d.modelManager.CylinderManager? && d.modelDistance.CylinderDistance? && d.modelGenerator.CylinderGenerator?
       && d.modelFitter.CylinderFitter? && d.codec.CylinderCodec?
    then Some(Cylinder)
    else if d.modelManager.PlaneGeneralManager? && d.modelDistance.PlaneDistance? && d.modelGenerator.PlaneGenerator?
       && d.modelFitter.PlaneSvdFitter? && d.codec.PlaneGeneralCodec?
    then Some(Plane)
    else None
  }

  /**
   * `d` is a coherent description of `kind` built from `t`, with generator check `check`:
   * the RANSAC inlier threshold, the angle and distance tolerances and the fit iterations are passed through.
   */
  predicate Describes(d: ShapeDescription, kind: ShapeKind, t: Tolerances, check: Option<Check>) {
    KindOf(d) == Some(kind) &&
    d.thresholdFit == t.ransacDistanceThreshold &&
    d.modelGenerator.check == check &&
    d.modelDistance.angleTolerance == t.angleTolerance &&
    d.modelGenerator.angleTolerance == t.angleTolerance &&
    (d.modelGenerator.PlaneGenerator? || d.modelGenerator.distanceTolerance == t.distanceTolerance) &&
    (d.modelFitter.PlaneSvdFitter? || d.modelFitter.maxIterations == t.fitIterations)
  }

  /** One case of the `switch` in `createDefault`: the description of `kind`, or `None` for an unsupported kind. */
  function Describe(kind: ShapeKind, t: Tolerances, check: Option<Check>): (r: Option<ShapeDescription>)
    ensures r.Some? <==> Supported(kind)
    ensures r.Some? ==> Describes(r.value, kind, t, check)
  {
    match kind
    case Sphere =>
      Some(ShapeDescription(
        SphereManager,
        SphereDistance(t.angleTolerance),
        SphereGenerator(t.angleTolerance, t.distanceTolerance, check),
        SphereFitter(t.fitIterations),
        SphereCodec,
        t.ransacDistanceThreshold))
    case Cylinder =>
      Some(ShapeDescription(
        CylinderManager,
        CylinderDistance(t.angleTolerance),
        CylinderGenerator(t.angleTolerance, t.distanceTolerance, check),
        CylinderFitter(t.fitIterations),
        CylinderCodec,
        t.ransacDistanceThreshold))
    case Plane =>
      Some(ShapeDescription(
        PlaneGeneralManager,
        PlaneDistance(t.angleTolerance),
        PlaneGenerator(t.angleTolerance, check),
        PlaneSvdFitter,
        PlaneGeneralCodec,
        t.ransacDistanceThreshold))
    case OtherKind(_) => None
  }

  /** Every kind in `kinds` has a case in `createDefault`. */
  predicate AllSupported(kinds: seq<ShapeKind>) {
    forall k :: 0 <= k < |kinds| ==> Supported(kinds[k])
  }

  /** `j` is the position of the first kind in `kinds` that `createDefault` has no case for. */
  predicate FirstUnsupported(kinds: seq<ShapeKind>, j: int) {
    0 <= j < |kinds| && !Supported(kinds[j]) && forall k :: 0 <= k < j ==> Supported(kinds[k])
  }

  /**
   * The descriptions for `kinds` paired index by index with `checks`, in order; the first
   * unsupported kind, scanning from the front, is the error.
   */
  function Descriptions(kinds: seq<ShapeKind>, checks: seq<Option<Check>>, t: Tolerances): (r: Result<seq<ShapeDescription>, ConfigError>)
    requires |checks| == |kinds|
    ensures r.Success? <==> AllSupported(kinds)
    ensures r.Success? ==> |r.value| == |kinds|
    ensures r.Success? ==> forall k :: 0 <= k < |kinds| ==> Describes(r.value[k], kinds[k], t, checks[k])
    ensures r.Failure? ==> exists j :: FirstUnsupported(kinds, j) && r.error == UnsupportedShape(kinds[j])
    decreases |kinds|
  {
    if |kinds| == 0 then Success([])
    else
      var n := |kinds| - 1;
      match Descriptions(kinds[..n], checks[..n], t)
      case Failure(e) => Failure(e)
      case Success(prefix) =>
        match Describe(kinds[n], t, checks[n])
        case None => Failure(UnsupportedShape(kinds[n]))
        case Some(d) => Success(prefix + [d])
  }

  /** The kinds `createDefault` works on: all kinds when `shapes` is null or empty. */
  function RequestedKinds(shapes: Option<seq<ShapeKind>>, allKinds: seq<ShapeKind>): (kinds: seq<ShapeKind>)
    ensures shapes.Some? && |shapes.value| > 0 ==> kinds == shapes.value
    ensures !(shapes.Some? && |shapes.value| > 0) ==> kinds == allKinds
    ensures |allKinds| > 0 ==> |kinds| > 0
  {
    if shapes.None? || |shapes.value| == 0 then allKinds else shapes.value
  }

  /** The checks `createDefault` works on: a null `checks` becomes `count` absent checks. */
  function RequestedChecks(checks: Option<seq<Option<Check>>>, count: nat): (cs: seq<Option<Check>>)
    ensures checks.Some? ==> cs == checks.value
    ensures checks.None? ==> |cs| == count && forall k :: 0 <= k < |cs| ==> cs[k].None?
  {
    if checks.None? then seq(count, _ => None) else checks.value
  }

  /**
   * What `createDefault` returns or throws. `allKinds` stands for the values of the shape-kind
   * enumeration, whose declaration is not part of this model.
   */
  function CreateDefaultResult(t: Tolerances, checks: Option<seq<Option<Check>>>, shapes: Option<seq<ShapeKind>>, allKinds: seq<ShapeKind>): (r: Result<Config, ConfigError>)
    ensures shapes.None? && checks.Some? ==> r == Failure(ChecksWithoutShapes)
    ensures !(shapes.None? && checks.Some?) ==>
      (r == Failure(ChecksLengthMismatch) <==>
       |RequestedChecks(checks, |RequestedKinds(shapes, allKinds)|)| != |RequestedKinds(shapes, allKinds)|)
    ensures r.Success? <==>
      !(shapes.None? && checks.Some?) &&
      |RequestedChecks(checks, |RequestedKinds(shapes, allKinds)|)| == |RequestedKinds(shapes, allKinds)| &&
      AllSupported(RequestedKinds(shapes, allKinds))
    ensures (!(shapes.None? && checks.Some?) &&
             |RequestedChecks(checks, |RequestedKinds(shapes, allKinds)|)| == |RequestedKinds(shapes, allKinds)| &&
             !AllSupported(RequestedKinds(shapes, allKinds)))
            ==> r.Failure? && r.error.UnsupportedShape?
    ensures r.Failure? ==> (r.error == ChecksWithoutShapes <==> shapes.None? && checks.Some?)
    ensures r.Failure? ==> r.error != OctreeSplitBelowMinAccept
    ensures r.Success? ==> r.value == DefaultConfig().(models := r.value.models)
    ensures r.Success? ==> r.value.models.Some? && |r.value.models.value| == |RequestedKinds(shapes, allKinds)|
    ensures r.Success? ==> forall k :: 0 <= k < |RequestedKinds(shapes, allKinds)| ==>
      Describes(r.value.models.value[k], RequestedKinds(shapes, allKinds)[k], t,
                RequestedChecks(checks, |RequestedKinds(shapes, allKinds)|)[k])
    ensures r.Failure? && r.error.UnsupportedShape? ==>
      exists j :: FirstUnsupported(RequestedKinds(shapes, allKinds), j) && r.error.kind == RequestedKinds(shapes, allKinds)[j]
  {
    if shapes.None? && checks.Some? then Failure(ChecksWithoutShapes)
    else
      var kinds := RequestedKinds(shapes, allKinds);
      var cs := RequestedChecks(checks, |kinds|);
      if |cs| != |kinds| then Failure(ChecksLengthMismatch)
      else
        match Descriptions(kinds, cs, t)
        case Failure(e) => Failure(e)
        case Success(objects) => Success(DefaultConfig().(models := Some(objects)))
  }

  /**
   * The for-each loop of `createDefault`: appends one description per kind, in order, with the
   * check at the same index; throws at the first kind the `switch` has no case for.
   */
  method AssembleDescriptions(kinds: seq<ShapeKind>, cs: seq<Option<Check>>, t: Tolerances)
    returns (r: Result<seq<ShapeDescription>, ConfigError>)
    requires |cs| == |kinds|
    ensures r == Descriptions(kinds, cs, t)
  {
    var objects: seq<ShapeDescription> := [];
    var index := 0;
    while index < |kinds|
      invariant 0 <= index <= |kinds|
      invariant Descriptions(kinds[..index], cs[..index], t) == Success(objects)
    {
      var d := Describe(kinds[index], t, cs[index]);
      if d.None? {
        assert kinds[..index + 1][..index] == kinds[..index] && cs[..index + 1][..index] == cs[..index];
        assert kinds[..|kinds|] == kinds && cs[..|kinds|] == cs;
        return Failure(UnsupportedShape(kinds[index]));
      }
      assert kinds[..index + 1][..index] == kinds[..index] && cs[..index + 1][..index] == cs[..index];
      objects := objects + [d.value];
      index := index + 1;
    }
    assert kinds[..index] == kinds && cs[..index] == cs;
    r := Success(objects);
  }

  /**
   * `createDefault`: validates and normalises `shapes` and `checks`, then appends one description
   * per requested kind, in order, with the matching check installed in its generator.
   */
  method CreateDefault(fitIterations: int, angleTolerance: real, distanceTolerance: real, ransacDistanceThreshold: real,
                       checks: Option<seq<Option<Check>>>, shapes: Option<seq<ShapeKind>>, allKinds: seq<ShapeKind>)
    returns (r: Result<Config, ConfigError>)
    ensures r == CreateDefaultResult(Tolerances(fitIterations, angleTolerance, distanceTolerance, ransacDistanceThreshold),
                                     checks, shapes, allKinds)
  {
    var t := Tolerances(fitIterations, angleTolerance, distanceTolerance, ransacDistanceThreshold);
    if shapes.None? && checks.Some? {
      return Failure(ChecksWithoutShapes);
    }
    var kinds := if shapes.None? || |shapes.value| == 0 then allKinds else shapes.value;
    var cs := if checks.None? then seq(|kinds|, _ => None) else checks.value;
    assert kinds == RequestedKinds(shapes, allKinds) && cs == RequestedChecks(checks, |kinds|);
    if |cs| != |kinds| {
      return Failure(ChecksLengthMismatch);
    }
    var objects := AssembleDescriptions(kinds, cs, t);
    match objects
    case Failure(e) =>
      r := Failure(e);
    case Success(ds) =>
      r := Success(DefaultConfig().(models := Some(ds)));
  }

  /**
   * An empty `shapes` is replaced by all kinds before the length check, so empty `shapes` and
   * empty `checks` together are rejected whenever the enumeration has a constant.
   */
  lemma EmptyShapesAndChecksRejected(t: Tolerances, allKinds: seq<ShapeKind>)
    requires |allKinds| > 0
    ensures CreateDefaultResult(t, Some([]), Some([]), allKinds) == Failure(ChecksLengthMismatch)
  {
  }

  /** A null `shapes` with a null `checks` describes every kind of the enumeration, in order, with no checks. */
  lemma NullShapesDescribeAllKinds(t: Tolerances)
    ensures var r := CreateDefaultResult(t, None, None, [Sphere, Cylinder, Plane]);
      r.Success? && r.value.models.Some? && |r.value.models.value| == 3 &&
      KindOf(r.value.models.value[0]) == Some(Sphere) &&
      KindOf(r.value.models.value[1]) == Some(Cylinder) &&
      KindOf(r.value.models.value[2]) == Some(Plane) &&
      forall k :: 0 <= k < 3 ==> r.value.models.value[k].modelGenerator.check.None?
  {
  }

  /** A configuration `createDefault` returns passes `checkConfig`. */
  lemma CreatedConfigPassesCheck(t: Tolerances, checks: Option<seq<Option<Check>>>, shapes: Option<seq<ShapeKind>>, allKinds: seq<ShapeKind>)
    requires CreateDefaultResult(t, checks, shapes, allKinds).Success?
    ensures CheckConfig(CreateDefaultResult(t, checks, shapes, allKinds).value).Pass?
  {
  }
}
