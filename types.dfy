/**
 * Fixed-width integer ranges, small geometric values and the fatal-error
 * outcome shared by every other module (gfx-lib/src/lib.rs, gfx-lib/src/sprite.rs).
 */
module Types {

  /** Unsigned integer widths used by the source. */
  type u8 = x: int | 0 <= x < 0x100
  type u16 = x: int | 0 <= x < 0x1_0000
  type u32 = x: int | 0 <= x < 0x1_0000_0000
  type u64 = x: int | 0 <= x < 0x1_0000_0000_0000_0000

  /** `Point2f` / `Vector2f`: two f32 components, modelled as reals. */
  datatype Vec2 = Vec2(x: real, y: real)

  /** A rectangle of a sprite sheet, in pixels. */
  datatype SpriteRegion = SpriteRegion(x: nat, y: nat, w: nat, h: nat)

  /** Why the source terminates the process (a `panic!`, `expect`, `assert` or failed `unwrap`). */
  datatype Fatal =
    | UnknownShaderProgram
    | NoSuitableMemoryType
    | ZeroSizedBuffer
    | PixelsTooShort
    | MissingKeycode
    | ArithmeticOverflow
    | MappingOutOfRange
    | DescriptorPoolExhausted
    | UnknownBatch

  /** The outcome of an operation that either completes or terminates the process. */
  datatype Result<T> = Ok(value: T) | Panic(reason: Fatal)

  datatype Option<T> = None | Some(value: T)
}
