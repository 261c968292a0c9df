/** `SharedKeyStatelessLetterCaptcha`: a `SharedKeyStatelessCaptcha` whose codes come
    from `GenerateSecureCaptchaCode(Letters, CodeLength)`. */
module SharedKeyStatelessLetterCaptcha {
  import opened Wrappers
  import opened Text
  import opened CaptchaTypes
  import opened SecureCaptchaGenerator
  import StatelessCaptcha
  import SharedKeyStatelessCaptcha

  const DefaultLetters: string := "2346789ABCDGHKMNPRUVWXYZ"
  const DefaultCodeLength: int := 4

  datatype SharedKeyStatelessLetterCaptchaOptions = SharedKeyStatelessLetterCaptchaOptions(
    base: SharedKeyStatelessCaptcha.SharedKeyStatelessCaptchaOptions,
    letters: string,
    codeLength: int)

  /** The property initialisers; the key has none and must be set. */
  function DefaultOptions(sharedKey: string): (o: SharedKeyStatelessLetterCaptchaOptions)
    ensures o.letters == "2346789ABCDGHKMNPRUVWXYZ" && o.codeLength == 4
    ensures o.base.common == StatelessCaptcha.DefaultOptions() && o.base.sharedKey == sharedKey
  {
    SharedKeyStatelessLetterCaptchaOptions(
      SharedKeyStatelessCaptcha.SharedKeyStatelessCaptchaOptions(StatelessCaptcha.DefaultOptions(), sharedKey),
      DefaultLetters, DefaultCodeLength)
  }

  datatype SharedKeyStatelessLetterCaptcha = SharedKeyStatelessLetterCaptcha(
    base: SharedKeyStatelessCaptcha.SharedKeyStatelessCaptcha,
    options: SharedKeyStatelessLetterCaptchaOptions)

  /** The primary constructor hands the options to the base constructor, so a captcha
      exists only once its key has passed the base's checks; the code length is not
      checked here. */
  function Create(options: Option<SharedKeyStatelessLetterCaptchaOptions>, base64: SharedKeyStatelessCaptcha.Base64Codec)
    : (r: Result<SharedKeyStatelessLetterCaptcha, CaptchaError>)
    ensures options.None? ==> r == Failure(ArgumentNull(Some("options"), None))
    ensures options.Some? ==>
              (r.Success? <==> SharedKeyStatelessCaptcha.Create(Some(options.value.base), base64).Success?)
    ensures options.Some? && r.Failure? ==>
              r.error == SharedKeyStatelessCaptcha.Create(Some(options.value.base), base64).error
    ensures r.Success? ==> |r.value.base.sharedKey| == SharedKeyStatelessCaptcha.KeySize
    ensures r.Success? ==> r.value.options == options.value
  {
    match options
    case None => Failure(ArgumentNull(Some("options"), None))
    case Some(o) =>
      var base :- SharedKeyStatelessCaptcha.Create(Some(o.base), base64);
      Success(SharedKeyStatelessLetterCaptcha(base, o))
  }

  /** `GenerateCaptchaCode()`, given the bytes the generator draws. */
  function GenerateCaptchaCode(c: SharedKeyStatelessLetterCaptcha, randomBytes: seq<byte>): (r: CodeResult)
    requires ValidCodeLength(c.options.codeLength) ==> |randomBytes| == c.options.codeLength
    ensures r == SecureCode(c.options.letters, c.options.codeLength, randomBytes)
    ensures r.Success? <==> ValidCodeLength(c.options.codeLength) && |c.options.letters| > 0
    ensures r.Success? ==> |r.value| == c.options.codeLength && IsUpperCase(r.value)
    ensures r.Success? ==> forall ch | ch in r.value :: ch in ToUpper(c.options.letters)
  {
    var code := SecureCode(c.options.letters, c.options.codeLength, randomBytes);
    if code.Success? then
      CodeDrawnFromLetters(c.options.letters, c.options.codeLength, randomBytes);
      code
    else
      code
  }

  predicate WellSized(c: SharedKeyStatelessLetterCaptcha, draws: seq<seq<byte>>) {
    ValidCodeLength(c.options.codeLength) ==> forall k | 0 <= k < |draws| :: |draws[k]| == c.options.codeLength
  }

  /** The outcomes of successive `GenerateCaptchaCode` calls. */
  function Codes(c: SharedKeyStatelessLetterCaptcha, draws: seq<seq<byte>>): (codes: seq<CodeResult>)
    requires WellSized(c, draws)
    ensures |codes| == |draws|
    ensures forall k | 0 <= k < |draws| :: codes[k] == GenerateCaptchaCode(c, draws[k])
  {
    seq(|draws|, k requires 0 <= k < |draws| => GenerateCaptchaCode(c, draws[k]))
  }

  /** The inherited `GenerateCaptcha` on the successive codes this captcha draws: the
      first error of the retry loop or of the expiry, otherwise the image rendered for
      the first unblocked code, which has the configured shape, and the framed
      encryption of that code as its token. */
  method GenerateCaptcha(c: SharedKeyStatelessLetterCaptcha, base64: SharedKeyStatelessCaptcha.Base64Codec,
                         aes: SharedKeyStatelessCaptcha.AesCbc, json: StatelessCaptcha.JsonCodec,
                         draws: seq<seq<byte>>, render: Renderer, now: int, iv: seq<byte>,
                         width: int := 100, height: int := 36)
    returns (r: Result<StatelessCaptchaResult, CaptchaError>, ghost code: string)
    requires |iv| == SharedKeyStatelessCaptcha.IvSize && WellSized(c, draws)
    requires StatelessCaptcha.FirstAllowed(Codes(c, draws), c.base.options.common.blockedCodes).Some?
    ensures var first := StatelessCaptcha.FirstAllowed(Codes(c, draws), c.base.options.common.blockedCodes).value;
            match first
            case Failure(e) => r == Failure(e)
            case Success(code) =>
              match SharedKeyStatelessCaptcha.IssueToken(c.base, base64, aes, json, code, now, iv)
              case Failure(e) => r == Failure(e)
              case Success(token) =>
                r == Success(StatelessCaptchaResult(
                  render(width, height, code, c.base.options.common.fontName, c.base.options.common.fontStyle,
                         c.base.options.common.drawLines).captchaByteData,
                  token))
    ensures !ValidCodeLength(c.options.codeLength) ==> r == Failure(CodeLengthOutOfRange(c.options.codeLength))
    ensures ValidCodeLength(c.options.codeLength) && |c.options.letters| == 0 ==> r == Failure(DivideByZero)
    ensures r.Success? ==> code !in c.base.options.common.blockedCodes
    ensures r.Success? ==> |code| == c.options.codeLength && IsUpperCase(code)
    ensures r.Success? ==> forall ch | ch in code :: ch in ToUpper(c.options.letters)
    ensures r.Success? ==>
              r.value.imageBytes == render(width, height, code, c.base.options.common.fontName,
                                           c.base.options.common.fontStyle, c.base.options.common.drawLines).captchaByteData
    ensures r.Success? ==>
              SharedKeyStatelessCaptcha.IssueToken(c.base, base64, aes, json, code, now, iv) == Success(r.value.token)
  {
    var codes := Codes(c, draws);
    r := SharedKeyStatelessCaptcha.GenerateCaptcha(c.base, base64, aes, json, codes, render, now, iv, width, height);
    var first := StatelessCaptcha.FirstAllowed(codes, c.base.options.common.blockedCodes).value;
    code := if first.Success? then first.value else "";
    if !ValidCodeLength(c.options.codeLength) {
      assert codes[0] == Failure(CodeLengthOutOfRange(c.options.codeLength));
    } else if |c.options.letters| == 0 {
      assert codes[0] == Failure(DivideByZero);
    }
  }
}
