/**
 * The record shapes of the editor: points in polar form, catalogue entries
 * (blueprints) and their placed instances.
 */
module Types {
  import opened Wrappers
  import opened Numerics

  datatype AppMode = Lathe | Assembly

  datatype RenderMode = Euclidian | Ramanujan

  datatype Manifestation = Wireframe | Surface | Volume

  /** The three unit-scale regimes: architectural, mechanical, micro. */
  datatype ISODomain = BIM | AUTO | CHIP

  function DomainName(d: ISODomain): string {
    match d
    case BIM => "BIM"
    case AUTO => "AUTO"
    case CHIP => "CHIP"
  }

  /**
   * A direction plus a scale multiplier. Points that come from a generator
   * always carry a radius; points written by the assistant may omit it.
   */
  datatype PolarPoint = PolarPoint(theta: real, phi: real, radius: Option<real>)

  /**
   * A catalogue entry. The last four fields are written only by the
   * assistant's transmutation; a manual commit leaves them absent.
   */
  datatype StagedObject = StagedObject(
    id: string,
    name: string,
    points: seq<Vec3>,
    layer: real,
    domain: ISODomain,
    subFolder: string,
    description: string,
    recoveryScore: real,
    timestamp: int,
    unit: string,
    polarInstructions: Option<seq<PolarPoint>>,
    revolutionAngle: Option<real>,
    isLathe: Option<bool>,
    ghostMode: Option<bool>)

  /** A placed occurrence of a blueprint, referring to it by id. */
  datatype AssemblyInstance = AssemblyInstance(
    blueprintId: string,
    position: Vec3,
    rotation: real,
    layer: real,
    renderMode: RenderMode,
    manifestation: Manifestation)
}
