/** Types shared by the code generator, the renderer and the three challenge managers:
    bytes, the exceptions the core can raise, font styles, the renderer's result
    (`CaptchaResult`), the stateless managers' result (`StatelessCaptchaResult`) and
    instants measured in 100-nanosecond ticks. */
module CaptchaTypes {
  import opened Wrappers

  newtype byte = x: int | 0 <= x < 256

  /** The exceptions the core throws, each with the parameter name and message the
      source gives it; None stands for a name not given or the framework's default text. */
  datatype CaptchaError =
    | ArgumentOutOfRange(paramName: Option<string>, message: Option<string>)
    | ArgumentNull(paramName: Option<string>, message: Option<string>)
    | Argument(paramName: Option<string>, message: Option<string>)
    | DivideByZero
    | NullReference
      /** `DateTimeOffset.Add` leaving the representable range of instants. */
    | DateTimeOutOfRange
      /** `Random.Next(minValue, maxValue)` called with `minValue > maxValue`. */
    | MinValueExceedsMaxValue
      /** The image library refusing a canvas whose width or height is not positive. */
    | ImageSizeOutOfRange

  /** What a `GenerateCaptchaCode` call returns: the code, or the exception it throws. */
  type CodeResult = Result<string, CaptchaError>

  /** SixLabors.Fonts.FontStyle */
  datatype FontStyle = Regular | Bold | Italic | BoldItalic

  /** A rendered challenge: the code drawn, the encoded image, when it was made. */
  datatype CaptchaResult = CaptchaResult(captchaCode: string, captchaByteData: seq<byte>, timestamp: int)

  /** What the stateless managers hand back: the image and the encrypted token. */
  datatype StatelessCaptchaResult = StatelessCaptchaResult(imageBytes: seq<byte>, token: string)

  /** The six-argument `GetImage(width, height, code, fontName, fontStyle, drawLines)`
      the managers call. Its body is not part of this model. */
  type Renderer = (int, int, string, Option<string>, FontStyle, bool) -> CaptchaResult

  /** The one thing the managers rely on: the result carries the code it was given. */
  ghost predicate KeepsCode(render: Renderer) {
    forall width, height, code, fontName, fontStyle, drawLines ::
      render(width, height, code, fontName, fontStyle, drawLines).captchaCode == code
  }

  /** `DateTime.MaxValue.Ticks`; instants are ticks since 0001-01-01 UTC. */
  const MaxTicks: int := 3155378975999999999

  /** A `TimeSpan` of `m` minutes, in ticks. */
  function Minutes(m: int): int {
    m * 60 * 10000000
  }

  /** `DateTimeOffset.Add(span)`: throws when the sum leaves the representable range. */
  function AddTimeSpan(instant: int, span: int): (r: Result<int, CaptchaError>)
    ensures r.Success? <==> 0 <= instant + span <= MaxTicks
    ensures r.Success? ==> r.value == instant + span
    ensures r.Failure? ==> r.error == DateTimeOutOfRange
  {
    if 0 <= instant + span <= MaxTicks then Success(instant + span) else Failure(DateTimeOutOfRange)
  }
}
