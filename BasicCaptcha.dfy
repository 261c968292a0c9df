/** `BasicLetterCaptcha`: the session-based captcha whose codes come from
    `GenerateSecureCaptchaCode(Letters, CodeLength)`, and the defaults its
    service registration supplies. */
module BasicCaptcha {
  import opened Wrappers
  import opened Text
  import opened CaptchaTypes
  import opened SecureCaptchaGenerator
  import opened SessionBasedCaptcha

  /** The session options plus the alphabet and the code length. */
  datatype BasicLetterCaptchaOptions = BasicLetterCaptchaOptions(
    session: SessionBasedCaptchaOptions,
    letters: string,
    codeLength: int)

  const RegisteredLetters: string := "2346789ABCDEFGHJKLMNPRTUVWXYZ"
  const RegisteredSessionName: string := "CaptchaCode"
  const RegisteredCodeLength: int := 4

  /** `AddSessionBasedCaptcha(options)`: the options object the registered captcha
      is built from, that is, the registration defaults (regular style, no font name,
      lines drawn) after the optional configuration callback has run on them. */
  function RegisteredOptions(configure: Option<BasicLetterCaptchaOptions -> BasicLetterCaptchaOptions>)
    : (o: BasicLetterCaptchaOptions)
    ensures configure.None? ==>
              && o.letters == "2346789ABCDEFGHJKLMNPRTUVWXYZ"
              && o.codeLength == 4
              && o.session == SessionBasedCaptchaOptions("CaptchaCode", Regular, None, true)
  {
    var option := BasicLetterCaptchaOptions(
      SessionBasedCaptchaOptions(RegisteredSessionName, Regular, None, true),
      RegisteredLetters, RegisteredCodeLength);
    match configure
    case None => option
    case Some(f) => f(option)
  }

  class BasicLetterCaptcha {
    /** The base class's settable `Options` property. */
    var Options: SessionBasedCaptchaOptions
    /** The private read-only `_options` the codes are generated from. */
    const options: BasicLetterCaptchaOptions

    /** Both views start out as the given options; nothing is validated here. */
    constructor (options: BasicLetterCaptchaOptions)
      ensures Options == options.session && this.options == options
    {
      Options := options.session;
      this.options := options;
    }

    /** `GenerateCaptchaCode()`, given the bytes the generator draws. */
    function GenerateCaptchaCode(randomBytes: seq<byte>): (r: CodeResult)
      requires ValidCodeLength(options.codeLength) ==> |randomBytes| == options.codeLength
      ensures r == SecureCode(options.letters, options.codeLength, randomBytes)
      ensures r.Success? <==> ValidCodeLength(options.codeLength) && |options.letters| > 0
      ensures r.Success? ==> |r.value| == options.codeLength && IsUpperCase(r.value)
      ensures r.Success? ==> forall ch | ch in r.value :: ch in ToUpper(options.letters)
    {
      var code := SecureCode(options.letters, options.codeLength, randomBytes);
      if code.Success? then
        CodeDrawnFromLetters(options.letters, options.codeLength, randomBytes);
        code
      else
        code
    }

    /** `GenerateCaptchaImageBytes` on this captcha: the session check comes first,
        then a fresh code is stored under the session key and rendered. */
    method GenerateCaptchaImageBytes(httpSession: Session?, randomBytes: seq<byte>, render: Renderer,
                                     width: int := 100, height: int := 36, sessionKeyName: Option<string> := None)
      returns (r: Result<seq<byte>, CaptchaError>)
      requires ValidCodeLength(options.codeLength) ==> |randomBytes| == options.codeLength
      requires KeepsCode(render)
      modifies httpSession
      ensures httpSession == null ==> r == Failure(ArgumentNull(Some("httpSession"), Some(SessionNullMessage)))
      ensures httpSession != null && !(ValidCodeLength(options.codeLength) && |options.letters| > 0) ==>
                && r == Failure(SecureCode(options.letters, options.codeLength, randomBytes).error)
                && httpSession.entries == old(httpSession.entries)
      ensures httpSession != null && ValidCodeLength(options.codeLength) && |options.letters| > 0 ==>
                var code := SecureCode(options.letters, options.codeLength, randomBytes).value;
                && r == Success(render(width, height, code, Options.fontName, Options.fontStyle,
                                       Options.drawLines).captchaByteData)
                && httpSession.entries == old(httpSession.entries)[SessionKey(Options, sessionKeyName) := code]
    {
      r := SessionBasedCaptcha.GenerateCaptchaImageBytes(Options, httpSession, GenerateCaptchaCode(randomBytes),
                                                         render, width, height, sessionKeyName);
    }
  }

  /** With the registration defaults every code is four characters of that alphabet. */
  lemma RegisteredCodes(randomBytes: seq<byte>)
    requires |randomBytes| == 4
    ensures SecureCode(RegisteredOptions(None).letters, 4, randomBytes).Success?
    ensures forall ch | ch in SecureCode(RegisteredOptions(None).letters, 4, randomBytes).value :: ch in RegisteredLetters
  {
    var letters := RegisteredLetters;
    assert ToUpper(letters) == letters by {
      forall i | 0 <= i < |letters| ensures ToUpperChar(letters[i]) == letters[i] {
      }
    }
    CodeDrawnFromLetters(letters, 4, randomBytes);
  }
}
