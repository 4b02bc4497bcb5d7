/** Shared value types of the engine: identifiers, sizes, atlas cells and the
    result type that stands for Rust's `anyhow::Result` plus a panic. */
module Common {

  datatype Option<+T> = None | Some(value: T)

  /** The error values the core returns through `Result::Err`. */
  datatype Failure =
    | NotEnoughSpace                                        // "Not enough space for textures in atlas"
    | TextureTooSmall                                       // "Texture size to small for largest texture"
    | ImageError(reason: string)                            // propagated from the image decoder
    | TooManyTextures(count: nat)                           // "Expected maximum texture count of 256, found: {}"
    | DimensionMismatch(expected: Size, found: Size, index: nat)
    | TextureNotInLayer                                     // "Texture is not in given layer"
    | AtlasError(reason: string)                            // whatever the layer's atlas reports

  /** `Ok`/`Err` are the two arms of a Rust `Result`; `Panic` is an abort of the
      whole program (an `unwrap` on `None`, a division by zero, a `todo!()`). */
  datatype Outcome<+T> = Ok(value: T) | Err(error: Failure) | Panic(message: string)

  const DivideByZero := "attempt to divide by zero"
  const RemainderByZero := "attempt to calculate the remainder with a divisor of zero"
  const UnwrapNone := "called `Option::unwrap()` on a `None` value"
  const NotYetImplemented := "not yet implemented"

  datatype Size = Size(width: nat, height: nat)

  /** A `[column, row]` slot of the atlas grid. */
  datatype Cell = Cell(column: nat, row: nat)

  datatype TextureId = TextureId(name: string)

  datatype LayerId = LayerId(value: nat)

  /** A point or offset in world space (`Vector3<f32>`, as reals). */
  datatype Vector3 = Vector3(x: real, y: real, z: real)

  newtype byte = x: int | 0 <= x < 256

  const U32_LIMIT: nat := 0x1_0000_0000

  predicate IsU32(x: int) { 0 <= x < U32_LIMIT }

  /** What `image::open` yields for one file: the native size of the decoded
      image, or the decoder's error. */
  datatype Decoded = Image(width: nat, height: nat) | OpenError(reason: string)
}
