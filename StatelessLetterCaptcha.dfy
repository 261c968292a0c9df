/** `StatelessLetterCaptcha`: a `StatelessCaptcha` whose codes come from
    `GenerateSecureCaptchaCode(Letters, CodeLength)`. */
module StatelessLetterCaptcha {
  import opened Wrappers
  import opened Text
  import opened CaptchaTypes
  import opened SecureCaptchaGenerator
  import StatelessCaptcha

  const DefaultLetters: string := "2346789ABCDGHKMNPRUVWXYZ"
  const DefaultCodeLength: int := 4

  /** The base options plus the alphabet and the code length. */
  datatype StatelessLetterCaptchaOptions = StatelessLetterCaptchaOptions(
    common: StatelessCaptcha.StatelessCaptchaOptions,
    letters: string,
    codeLength: int)

  /** The property initialisers: the base defaults, 24 letters, length 4. */
  function DefaultOptions(): (o: StatelessLetterCaptchaOptions)
    ensures o.letters == "2346789ABCDGHKMNPRUVWXYZ" && o.codeLength == 4
    ensures o.common == StatelessCaptcha.DefaultOptions()
  {
    StatelessLetterCaptchaOptions(StatelessCaptcha.DefaultOptions(), DefaultLetters, DefaultCodeLength)
  }

  /** The captcha is a `StatelessCaptcha` built from the same options. */
  datatype StatelessLetterCaptcha = StatelessLetterCaptcha(
    base: StatelessCaptcha.StatelessCaptcha,
    options: StatelessLetterCaptchaOptions)

  /** The primary constructor accepts any options: a bad length surfaces only when
      a code is generated. */
  function Create(provider: StatelessCaptcha.DataProtectionProvider, options: StatelessLetterCaptchaOptions)
    : (c: StatelessLetterCaptcha)
    ensures c.base == StatelessCaptcha.Create(provider, options.common) && c.options == options
  {
    StatelessLetterCaptcha(StatelessCaptcha.Create(provider, options.common), options)
  }

  /** `GenerateCaptchaCode()`, given the bytes the generator draws. */
  function GenerateCaptchaCode(c: StatelessLetterCaptcha, randomBytes: seq<byte>): (r: CodeResult)
    requires ValidCodeLength(c.options.codeLength) ==> |randomBytes| == c.options.codeLength
    ensures r == SecureCode(c.options.letters, c.options.codeLength, randomBytes)
    ensures r.Success? <==> ValidCodeLength(c.options.codeLength) && |c.options.letters| > 0
    ensures r.Success? ==> |r.value| == c.options.codeLength && IsUpperCase(r.value)
    ensures r.Success? ==> forall ch | ch in r.value :: ch in ToUpper(c.options.letters)
  {
    var code := SecureCode(c.options.letters, c.options.codeLength, randomBytes);
    if code.Success? then
      CodeDrawnFromLetters(c.options.letters, c.options.codeLength, randomBytes);
      code
    else
      code
  }

  /** The random byte blocks are one per `GenerateCaptchaCode` call. */
  predicate WellSized(c: StatelessLetterCaptcha, draws: seq<seq<byte>>) {
    ValidCodeLength(c.options.codeLength) ==> forall k | 0 <= k < |draws| :: |draws[k]| == c.options.codeLength
  }

  /** The outcomes of successive `GenerateCaptchaCode` calls. */
  function Codes(c: StatelessLetterCaptcha, draws: seq<seq<byte>>): (codes: seq<CodeResult>)
    requires WellSized(c, draws)
    ensures |codes| == |draws|
    ensures forall k | 0 <= k < |draws| :: codes[k] == GenerateCaptchaCode(c, draws[k])
  {
    seq(|draws|, k requires 0 <= k < |draws| => GenerateCaptchaCode(c, draws[k]))
  }

  /** With default options every code is four characters of the default alphabet. */
  lemma DefaultCode(c: StatelessLetterCaptcha, randomBytes: seq<byte>)
    requires c.options == DefaultOptions() && |randomBytes| == 4
    ensures GenerateCaptchaCode(c, randomBytes).Success?
    ensures |GenerateCaptchaCode(c, randomBytes).value| == 4
    ensures forall ch | ch in GenerateCaptchaCode(c, randomBytes).value :: ch in DefaultLetters
  {
    var letters := DefaultLetters;
    assert ToUpper(letters) == letters by {
      forall i | 0 <= i < |letters| ensures ToUpperChar(letters[i]) == letters[i] {
        assert !IsAsciiLower(letters[i]);
      }
    }
  }

  /** Mixed-case letters "abcDEF123" give only characters of "ABCDEF123". */
  lemma MixedCaseLetters(c: StatelessLetterCaptcha, randomBytes: seq<byte>)
    requires c.options.letters == "abcDEF123" && c.options.codeLength == 6 && |randomBytes| == 6
    ensures GenerateCaptchaCode(c, randomBytes).Success?
    ensures IsUpperCase(GenerateCaptchaCode(c, randomBytes).value)
    ensures forall ch | ch in GenerateCaptchaCode(c, randomBytes).value :: ch in "ABCDEF123"
  {
    assert ToUpper("abcDEF123") == "ABCDEF123";
  }

  /** The inherited `GenerateCaptcha` on the successive codes this captcha draws: the
      first error of the retry loop or of the expiry, otherwise the image rendered for
      the first unblocked code, which has the configured shape, and its token. */
  method GenerateCaptcha(c: StatelessLetterCaptcha, draws: seq<seq<byte>>, render: Renderer,
                         json: StatelessCaptcha.JsonCodec, now: int, width: int := 100, height: int := 36)
    returns (r: Result<StatelessCaptchaResult, CaptchaError>, ghost code: string)
    requires WellSized(c, draws)
    requires StatelessCaptcha.FirstAllowed(Codes(c, draws), c.base.options.blockedCodes).Some?
    ensures var first := StatelessCaptcha.FirstAllowed(Codes(c, draws), c.base.options.blockedCodes).value;
            match first
            case Failure(e) => r == Failure(e)
            case Success(code) =>
              match StatelessCaptcha.IssueToken(c.base, json, code, now)
              case Failure(e) => r == Failure(e)
              case Success(token) =>
                r == Success(StatelessCaptchaResult(
                  render(width, height, code, c.base.options.fontName, c.base.options.fontStyle,
                         c.base.options.drawLines).captchaByteData,
                  token))
    ensures !ValidCodeLength(c.options.codeLength) ==> r == Failure(CodeLengthOutOfRange(c.options.codeLength))
    ensures ValidCodeLength(c.options.codeLength) && |c.options.letters| == 0 ==> r == Failure(DivideByZero)
    ensures r.Success? ==> code !in c.base.options.blockedCodes
    ensures r.Success? ==> |code| == c.options.codeLength && IsUpperCase(code)
    ensures r.Success? ==> forall ch | ch in code :: ch in ToUpper(c.options.letters)
    ensures r.Success? ==>
              r.value.imageBytes == render(width, height, code, c.base.options.fontName, c.base.options.fontStyle,
                                           c.base.options.drawLines).captchaByteData
    ensures r.Success? ==> StatelessCaptcha.IssueToken(c.base, json, code, now) == Success(r.value.token)
  {
    var codes := Codes(c, draws);
    r := StatelessCaptcha.GenerateCaptcha(c.base, codes, render, json, now, width, height);
    var first := StatelessCaptcha.FirstAllowed(codes, c.base.options.blockedCodes).value;
    code := if first.Success? then first.value else "";
    if !ValidCodeLength(c.options.codeLength) {
      assert codes[0] == Failure(CodeLengthOutOfRange(c.options.codeLength));
    } else if |c.options.letters| == 0 {
      assert codes[0] == Failure(DivideByZero);
    }
  }
}
