/**
 * The shared types of the visualisation: the two display modes and the
 * per-ornament record produced by the ornament generator.
 */
module Types {
  import opened Numerics

  /** The application's display mode: the diffuse scatter or the cone-shaped tree. */
  datatype AppState = SCATTERED | TREE_SHAPE

  /** The two ornament variants, drawn by two separate instanced meshes. */
  datatype OrnamentKind = Box | Sphere

  /** Colours are kept as the palette's hex strings; parsing them into RGB is not modelled. */
  type Color = string

  /** One ornament: its two target positions and its static attributes. */
  datatype OrnamentData = OrnamentData(
    id: nat,
    scatterPos: Vec3,
    treePos: Vec3,
    rotation: Vec3,
    scale: real,
    color: Color,
    kind: OrnamentKind)
}
