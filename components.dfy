/** The bounding-volume component that scene code attaches to an entity. */
module Components {

  /** The `uint8_t` style tag of a bounding box. */
  newtype Style = x: int | 0 <= x < 256

  /** The only style the renderer defines: a sphere centred on the local origin. */
  const Sphere: Style := 0

  /** A bounding box component: size `d` (the sphere's radius) and its style tag. */
  datatype BoundingBox = BoundingBox(d: real, style: Style)
}
