/**
 Value types that flow through the video stage: pixel buffers, frame timing,
 the screen-capture size notification, and the 32-bit integers the encoder
 stores its dimensions in.
 */
module Media {

  datatype Option<T> = None | Some(value: T)

  /** Swift's Int32, the type of the encoder's width and height. */
  newtype int32 = x: int | -0x8000_0000 <= x < 0x8000_0000

  /** A four-character pixel format code, as CoreVideo spells pixel formats. */
  type FourCC = x: int | 0 <= x < 0x1_0000_0000

  /** kCVPixelFormatType_420YpCbCr8BiPlanarVideoRange, the characters '420v'. */
  const YpCbCr420BiPlanarVideoRange: FourCC := 0x3432_3076

  /** A CMTime: an opaque timestamp or duration that is passed through unchanged. */
  datatype Time = Time(value: int, timescale: int)

  /**
   A native pixel buffer. Only what the video stage looks at is kept: its
   dimensions, its pixel format, and its content viewed as an image of type I.
   */
  datatype PixelBuffer<I> = PixelBuffer(width: nat, height: nat, format: FourCC, content: I)

  /** A CGSize as the screen-capture source reports it, in floating-point points. */
  datatype Size = Size(width: real, height: real)

  /** The reals that Swift's Int32(_: CGFloat) converts without trapping. */
  predicate FitsInt32(x: real)
  {
    -2147483649.0 < x < 2147483648.0
  }

  /**
   Swift's Int32(_: CGFloat): drops the fractional part, rounding toward zero.
   Outside FitsInt32 the conversion traps, so callers must stay inside it.
   */
  function TruncateToInt32(x: real): (r: int32)
    requires FitsInt32(x)
    ensures 0.0 <= x ==> 0 <= r && r as real <= x < r as real + 1.0
    ensures x < 0.0 ==> r <= 0 && r as real - 1.0 < x <= r as real
  {
    if 0.0 <= x then x.Floor as int32 else (-((-x).Floor)) as int32
  }

  /** A size that is already a whole number of points converts exactly. */
  lemma TruncateWhole(n: int32)
    ensures FitsInt32(n as real) && TruncateToInt32(n as real) == n
  {
  }
}
