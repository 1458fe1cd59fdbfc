/**
 * The transmutation of an assistant's action token into a preview ("ghost")
 * catalogue entry (services/NeuroCore.ts). The token is untrusted: any field
 * may be missing, and every rejection yields `None`.
 */
module NeuroCore {
  import opened Wrappers
  import opened Numerics
  import opened Types
  import opened Polar
  import opened Generators
  import opened Text

  const DRAW_OBJECT: string := "DRAW_OBJECT"
  const SPIRAL_HELIX: string := "generateSpiralHelix"
  const LATTICE: string := "generateLattice"

  /** Radius used when the caller's radius factor is missing or not positive. */
  const FALLBACK_RADIUS: real := 10.0
  /** The layer at which a radius is drawn: the inverse of the session's `layer * 2.5`. */
  function LayerOf(radius: real): real {
    radius / 2.5
  }
  const GHOST_RECOVERY_SCORE: real := 0.95
  const DEFAULT_REVOLUTION: real := 360.0
  const DEFAULT_NAME: string := "AI_SYNTH_OBJECT"
  const DEFAULT_DESCRIPTION: string := "Sovereign Synthesis via NeuroCore"
  const ID_PREFIX: string := "ISO-SYNTH-"

  /** The generator parameters; absent ones take the generator's defaults. */
  datatype GeneratorParams = GeneratorParams(
    turns: Option<real>,
    totalHeight: Option<real>,
    startPhi: Option<real>,
    startTheta: Option<real>,
    centerTheta: Option<real>,
    centerPhi: Option<real>,
    size: Option<real>,
    resolution: Option<real>)

  datatype GeneratorCall = GeneratorCall(functionName: string, params: Option<GeneratorParams>)

  datatype Payload = Payload(
    id: Option<string>,
    name: Option<string>,
    points: Option<seq<PolarPoint>>,
    generatorCall: Option<GeneratorCall>,
    baseLayer: Option<real>,
    domain: Option<ISODomain>,
    manifestation: Option<Manifestation>,
    revolutionAngle: Option<real>,
    description: Option<string>)

  datatype ActionToken = ActionToken(action: string, payload: Option<Payload>)

  /** JavaScript truthiness of an optional number: present and non-zero. */
  predicate TruthyNumber(o: Option<real>) {
    o.Some? && o.value != 0.0
  }

  /** JavaScript truthiness of an optional string: present and non-empty. */
  predicate TruthyString(o: Option<string>) {
    o.Some? && o.value != ""
  }

  /** `radiusFactor` when it is positive, otherwise the fallback of 10. */
  function SafeRadius(radiusFactor: Option<real>): (r: real)
    ensures 0.0 < r
    ensures radiusFactor.Some? && 0.0 < radiusFactor.value ==> r == radiusFactor.value
    ensures radiusFactor.None? || radiusFactor.value <= 0.0 ==> r == FALLBACK_RADIUS
  {
    if radiusFactor.Some? && radiusFactor.value > 0.0 then radiusFactor.value else FALLBACK_RADIUS
  }

  /** `p.radius || 1`: a missing or zero multiplier counts as 1. */
  function RadiusMultiplier(p: PolarPoint): (k: real)
    ensures k != 0.0
    ensures p.radius.Some? && p.radius.value != 0.0 ==> k == p.radius.value
    ensures p.radius.None? || p.radius.value == 0.0 ==> k == 1.0
  {
    if TruthyNumber(p.radius) then p.radius.value else 1.0
  }

  /** Missing parameters: `params?.field` is `undefined` for every field. */
  const NoParams: GeneratorParams := GeneratorParams(None, None, None, None, None, None, None, None)

  /** The generators the assistant may name. */
  datatype GeneratorKind = SpiralHelix | Lattice | Unknown

  /** Dispatch on the generator's function name. */
  function KindOf(functionName: string): (kind: GeneratorKind)
    ensures kind == SpiralHelix <==> functionName == SPIRAL_HELIX
    ensures kind == Lattice <==> functionName == LATTICE
  {
    if functionName == SPIRAL_HELIX then SpiralHelix
    else if functionName == LATTICE then Lattice
    else Unknown
  }

  /**
   * The polar points the object is built from: the named generator's output,
   * or the payload's literal points when no generator (or an unknown one) is
   * named.
   */
  function PointSource(payload: Payload): (points: seq<PolarPoint>)
    ensures payload.generatorCall.None? ==> points == payload.points.GetOr([])
    ensures payload.generatorCall.Some? && KindOf(payload.generatorCall.value.functionName) == Unknown
         ==> points == payload.points.GetOr([])
    ensures payload.generatorCall.Some? && KindOf(payload.generatorCall.value.functionName) != Unknown
         ==> forall i :: 0 <= i < |points| ==> points[i].radius == Some(1.0)
    ensures payload.generatorCall.Some? && KindOf(payload.generatorCall.value.functionName) == SpiralHelix
         ==> var params := payload.generatorCall.value.params.GetOr(NoParams);
             points == GenerateSpiralHelix(
               params.turns.GetOr(DEFAULT_TURNS), params.totalHeight.GetOr(DEFAULT_TOTAL_HEIGHT),
               params.startPhi.GetOr(DEFAULT_START_PHI), params.startTheta.GetOr(DEFAULT_START_THETA),
               DEFAULT_POINTS_PER_TURN)
    ensures payload.generatorCall.Some? && KindOf(payload.generatorCall.value.functionName) == Lattice
         ==> var params := payload.generatorCall.value.params.GetOr(NoParams);
             points == GenerateLattice(
               params.centerTheta.GetOr(DEFAULT_CENTER_THETA), params.centerPhi.GetOr(DEFAULT_CENTER_PHI),
               params.size.GetOr(DEFAULT_SIZE), params.resolution.GetOr(DEFAULT_RESOLUTION))
  {
    var literal := payload.points.GetOr([]);
    if payload.generatorCall.None? then literal
    else
      var call := payload.generatorCall.value;
      var params := call.params.GetOr(NoParams);
      match KindOf(call.functionName)
      case SpiralHelix =>
        GenerateSpiralHelix(
          params.turns.GetOr(DEFAULT_TURNS),
          params.totalHeight.GetOr(DEFAULT_TOTAL_HEIGHT),
          params.startPhi.GetOr(DEFAULT_START_PHI),
          params.startTheta.GetOr(DEFAULT_START_THETA),
          DEFAULT_POINTS_PER_TURN)
      case Lattice =>
        GenerateLattice(
          params.centerTheta.GetOr(DEFAULT_CENTER_THETA),
          params.centerPhi.GetOr(DEFAULT_CENTER_PHI),
          params.size.GetOr(DEFAULT_SIZE),
          params.resolution.GetOr(DEFAULT_RESOLUTION))
      case Unknown => literal
  }

  /** The generator parameters a call spells out in full when it gives them all as their defaults. */
  const SpelledOutDefaults: GeneratorParams := GeneratorParams(
    Some(DEFAULT_TURNS), Some(DEFAULT_TOTAL_HEIGHT), Some(DEFAULT_START_PHI), Some(DEFAULT_START_THETA),
    Some(DEFAULT_CENTER_THETA), Some(DEFAULT_CENTER_PHI), Some(DEFAULT_SIZE), Some(DEFAULT_RESOLUTION))

  /**
   * Missing parameters take the generators' defaults: a call without
   * `params`, one with every field missing, and one spelling out every
   * default all produce the same points.
   */
  lemma MissingParamsDefault(payload: Payload, name: string)
    ensures var without := PointSource(payload.(generatorCall := Some(GeneratorCall(name, None))));
      && without == PointSource(payload.(generatorCall := Some(GeneratorCall(name, Some(NoParams)))))
      && without == PointSource(payload.(generatorCall := Some(GeneratorCall(name, Some(SpelledOutDefaults)))))
  {
  }

  /** One polar point in Cartesian form at the safe radius. */
  function ToCartesian(m: MathOps, p: PolarPoint, safeRadius: real): Vec3 {
    ToVec3(m, RadiusMultiplier(p) * safeRadius, p.theta, p.phi)
  }

  /** `polarPoints.map(...)`: the whole point source in Cartesian form. */
  function CartesianPoints(m: MathOps, src: seq<PolarPoint>, safeRadius: real): (points: seq<Vec3>)
    ensures |points| == |src|
    ensures forall i :: 0 <= i < |src| ==> points[i] == ToCartesian(m, src[i], safeRadius)
  {
    seq(|src|, i requires 0 <= i < |src| => ToCartesian(m, src[i], safeRadius))
  }

  /** Whether the object should be revolved into a solid. */
  function IsLathe(payload: Payload): (lathe: bool)
    ensures payload.manifestation == Some(Volume) ==> lathe
    ensures payload.manifestation != Some(Volume) ==>
      (lathe <==> payload.revolutionAngle.Some? && payload.revolutionAngle.value != 0.0)
  {
    payload.manifestation == Some(Volume) || TruthyNumber(payload.revolutionAngle)
  }

  /**
   * The ghost object built from a payload and its point source: every
   * missing field takes its default. The id, name, description, base layer
   * and domain use `||`; every domain name is a non-empty string, so `||`
   * falls back exactly when the domain is missing. Only the revolution
   * angle uses `??`, which keeps a present 0.
   */
  function GhostObject(m: MathOps, payload: Payload, src: seq<PolarPoint>, radiusFactor: Option<real>,
                       uuid: string, now: int): (obj: StagedObject)
    ensures |obj.points| == |src|
    ensures obj.polarInstructions == Some(src)
    ensures forall i :: 0 <= i < |src| ==> obj.points[i] == ToCartesian(m, src[i], SafeRadius(radiusFactor))
    ensures obj.ghostMode == Some(true) && obj.recoveryScore == GHOST_RECOVERY_SCORE
    ensures obj.isLathe == Some(payload.manifestation == Some(Volume) || TruthyNumber(payload.revolutionAngle))
    ensures obj.revolutionAngle == Some(if payload.revolutionAngle.Some? then payload.revolutionAngle.value else DEFAULT_REVOLUTION)
    ensures obj.domain == (if payload.domain.Some? then payload.domain.value else BIM)
    ensures TruthyString(payload.id) ==> obj.id == payload.id.value
    ensures !TruthyString(payload.id) ==> obj.id == ID_PREFIX + IdTag(uuid)
    ensures obj.name == if TruthyString(payload.name) then payload.name.value else DEFAULT_NAME
    ensures TruthyString(payload.description) ==> obj.description == payload.description.value
    ensures !TruthyString(payload.description) ==> obj.description == DEFAULT_DESCRIPTION
    ensures TruthyNumber(payload.baseLayer) ==> obj.layer == payload.baseLayer.value
    ensures !TruthyNumber(payload.baseLayer) ==> obj.layer == LayerOf(SafeRadius(radiusFactor))
    ensures obj.subFolder == "m" && obj.unit == "m" && obj.timestamp == now
  {
    var safeRadius := SafeRadius(radiusFactor);
    StagedObject(
      id := if TruthyString(payload.id) then payload.id.value else ID_PREFIX + IdTag(uuid),
      name := if TruthyString(payload.name) then payload.name.value else DEFAULT_NAME,
      points := CartesianPoints(m, src, safeRadius),
      layer := if TruthyNumber(payload.baseLayer) then payload.baseLayer.value else LayerOf(safeRadius),
      domain := payload.domain.GetOr(BIM),
      subFolder := "m",
      description := if TruthyString(payload.description) then payload.description.value else DEFAULT_DESCRIPTION,
      recoveryScore := GHOST_RECOVERY_SCORE,
      timestamp := now,
      unit := "m",
      polarInstructions := Some(src),
      revolutionAngle := Some(payload.revolutionAngle.GetOr(DEFAULT_REVOLUTION)),
      isLathe := Some(IsLathe(payload)),
      ghostMode := Some(true))
  }

  /**
   * `transmuteIntentToGeometry`: only a drawing action with a payload whose
   * point source is non-empty yields an object. The random identifier and
   * the clock are parameters: `uuid` and `now`.
   */
  function Transmute(m: MathOps, token: ActionToken, radiusFactor: Option<real>, uuid: string, now: int)
    : (result: Option<StagedObject>)
    ensures result.None? <==>
      token.action != DRAW_OBJECT || token.payload.None? || |PointSource(token.payload.value)| == 0
    ensures result.Some? ==>
      result.value == GhostObject(m, token.payload.value, PointSource(token.payload.value), radiusFactor, uuid, now)
  {
    if token.action != DRAW_OBJECT || token.payload.None? then None
    else
      var src := PointSource(token.payload.value);
      if |src| == 0 then None
      else Some(GhostObject(m, token.payload.value, src, radiusFactor, uuid, now))
  }

  /** A missing, zero or negative radius factor behaves exactly like the fallback of 10. */
  lemma RadiusFallback(m: MathOps, token: ActionToken, radiusFactor: Option<real>, uuid: string, now: int)
    requires radiusFactor.None? || radiusFactor.value <= 0.0
    ensures Transmute(m, token, radiusFactor, uuid, now) == Transmute(m, token, Some(FALLBACK_RADIUS), uuid, now)
  {
  }

  /** Naming an unknown generator is the same as naming none. */
  lemma UnknownGeneratorIgnored(m: MathOps, token: ActionToken, radiusFactor: Option<real>, uuid: string, now: int)
    requires token.payload.Some? && token.payload.value.generatorCall.Some?
    requires KindOf(token.payload.value.generatorCall.value.functionName) == Unknown
    ensures Transmute(m, token, radiusFactor, uuid, now)
         == Transmute(m, token.(payload := Some(token.payload.value.(generatorCall := None))), radiusFactor, uuid, now)
  {
  }

  /**
   * Every produced point lies on the sphere of its own radius multiplier
   * times the safe radius; a point with the unit multiplier lies on the safe
   * sphere itself.
   */
  lemma PointsOnShell(m: MathOps, payload: Payload, src: seq<PolarPoint>, radiusFactor: Option<real>,
                      uuid: string, now: int, i: int)
    requires m.Valid() && 0 <= i < |src|
    ensures var obj := GhostObject(m, payload, src, radiusFactor, uuid, now);
      var r := RadiusMultiplier(src[i]) * SafeRadius(radiusFactor);
      NormSq(obj.points[i]) == r * r
    ensures src[i].radius == Some(1.0) ==>
      NormSq(GhostObject(m, payload, src, radiusFactor, uuid, now).points[i])
      == SafeRadius(radiusFactor) * SafeRadius(radiusFactor)
  {
    CartesianOnShell(m, src[i], SafeRadius(radiusFactor));
  }

  /** A generated object lies entirely on the sphere of the safe radius. */
  lemma GeneratedPointsOnSafeShell(m: MathOps, token: ActionToken, radiusFactor: Option<real>,
                                   uuid: string, now: int, i: int)
    requires m.Valid()
    requires Transmute(m, token, radiusFactor, uuid, now).Some?
    requires token.payload.value.generatorCall.Some?
    requires KindOf(token.payload.value.generatorCall.value.functionName) != Unknown
    requires 0 <= i < |Transmute(m, token, radiusFactor, uuid, now).value.points|
    ensures NormSq(Transmute(m, token, radiusFactor, uuid, now).value.points[i])
         == SafeRadius(radiusFactor) * SafeRadius(radiusFactor)
  {
    var payload := token.payload.value;
    PointsOnShell(m, payload, PointSource(payload), radiusFactor, uuid, now, i);
  }

  lemma CartesianOnShell(m: MathOps, p: PolarPoint, safeRadius: real)
    requires m.Valid()
    ensures var r := RadiusMultiplier(p) * safeRadius;
      NormSq(ToCartesian(m, p, safeRadius)) == r * r
    ensures p.radius == Some(1.0) ==> NormSq(ToCartesian(m, p, safeRadius)) == safeRadius * safeRadius
  {
  }

  /** A lattice request of resolution 3 with a base layer and nothing else. */
  function LatticeToken(baseLayer: real): ActionToken {
    var params := NoParams.(resolution := Some(3.0));
    ActionToken(DRAW_OBJECT, Some(Payload(
      id := None, name := None, points := None,
      generatorCall := Some(GeneratorCall(LATTICE, Some(params))),
      baseLayer := Some(baseLayer), domain := None, manifestation := None,
      revolutionAngle := None, description := None)))
  }

  /**
   * A resolution-3 lattice with base layer 20 and no domain gives a
   * nine-point, non-lathe ghost object in the architectural domain.
   */
  lemma LatticeTokenScenario(m: MathOps, radiusFactor: Option<real>, uuid: string, now: int)
    ensures var result := Transmute(m, LatticeToken(20.0), radiusFactor, uuid, now);
      && result.Some?
      && |result.value.points| == 9
      && result.value.domain == BIM
      && result.value.isLathe == Some(false)
      && result.value.ghostMode == Some(true)
      && result.value.layer == 20.0
  {
    var payload := LatticeToken(20.0).payload.value;
    RowCountOfInteger(3);
    assert |PointSource(payload)| == 9;
  }

  /** A spiral request with default parameters yields 49 points. */
  lemma DefaultSpiralScenario(m: MathOps, payload: Payload, radiusFactor: Option<real>, uuid: string, now: int)
    requires payload.generatorCall == Some(GeneratorCall(SPIRAL_HELIX, None))
    ensures var result := Transmute(m, ActionToken(DRAW_OBJECT, Some(payload)), radiusFactor, uuid, now);
      result.Some? && |result.value.points| == 49
  {
    DefaultSpiralHas49Points();
  }

  /** A helix with a negative number of turns has no points, so the token is rejected. */
  lemma NegativeTurnsRejected(m: MathOps, payload: Payload, turns: real, radiusFactor: Option<real>, uuid: string, now: int)
    requires turns < 0.0
    requires payload.generatorCall == Some(GeneratorCall(SPIRAL_HELIX,
      Some(NoParams.(turns := Some(turns)))))
    ensures Transmute(m, ActionToken(DRAW_OBJECT, Some(payload)), radiusFactor, uuid, now).None?
  {
    assert turns * DEFAULT_POINTS_PER_TURN < 0.0;
  }
}
