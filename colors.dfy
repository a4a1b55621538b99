/** RGBA colours (gfx-lib/src/color.rs); channels are f32 in the source and reals here. */
module Colors {

  datatype Color = Color(r: real, g: real, b: real, a: real)

  const BLACK := Color(0.0, 0.0, 0.0, 1.0)
  const WHITE := Color(1.0, 1.0, 1.0, 1.0)
  const GRAY := Color(0.4, 0.4, 0.4, 1.0)
  const RED := Color(1.0, 0.0, 0.0, 1.0)
  const GREEN := Color(0.0, 1.0, 0.0, 1.0)
  const BLUE := Color(0.0, 0.0, 1.0, 1.0)

  /** `Color::default()` is opaque white. */
  const DEFAULT_COLOR := WHITE
}
