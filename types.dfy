/** The value types the plugin's modules share. */
module Types {
  import opened JsRuntime

  /** The cut types as the type declaration spells them ("online" without a hyphen). */
  datatype CutType = Inside | Outside | Online | Pocket | Guide

  function CutTypeName(t: CutType): string {
    match t
    case Inside => "inside"
    case Outside => "outside"
    case Online => "online"
    case Pocket => "pocket"
    case Guide => "guide"
  }

  /** A length unit: inches, millimetres, or screen pixels. */
  datatype Unit = In | Mm | Px

  /** The two physical units. */
  type RealUnit = u: Unit | u != Px witness In

  function UnitName(u: Unit): string {
    match u
    case In => "in"
    case Mm => "mm"
    case Px => "px"
  }

  /**
   * Cut data stored on a path. The stored texts are kept as text: a stored
   * cut type is whatever text passed validation, which need not be a CutType.
   */
  datatype PathData = PathData(cutDepth: Option<string>, cutType: Option<string>)
}
