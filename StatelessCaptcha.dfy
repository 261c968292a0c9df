/** `StatelessCaptcha`: issues a code that is not blocked, renders it, and hands back
    the code and its expiry as a token sealed by ASP.NET Core Data Protection; a
    guess is checked against the token alone. The data protector and the JSON
    serializer are opaque capabilities given as function values. */
module StatelessCaptcha {
  import opened Wrappers
  import opened Text
  import opened CaptchaTypes

  /** The purpose string the protector is created for. */
  const ProtectorPurpose: string := "Edi.Captcha.Stateless"

  /** `TimeSpan.FromMinutes(5)` */
  const DefaultTokenExpiration: int := Minutes(5)

  datatype StatelessCaptchaOptions = StatelessCaptchaOptions(
    fontStyle: FontStyle,
    fontName: Option<string>,
    drawLines: bool,
    blockedCodes: seq<string>,
    tokenExpiration: int)

  /** The property initialisers of `StatelessCaptchaOptions`. */
  function DefaultOptions(): (o: StatelessCaptchaOptions)
    ensures o.blockedCodes == [] && o.tokenExpiration == 3000000000
    ensures o.fontStyle == Regular && o.fontName == None && o.drawLines
  {
    StatelessCaptchaOptions(Regular, None, true, [], DefaultTokenExpiration)
  }

  /** The token payload. */
  datatype CaptchaTokenData = CaptchaTokenData(code: string, expirationTime: int)

  /** `JsonSerializer.Serialize` / `Deserialize<CaptchaTokenData>`; deserialising
      input that is not such a payload (or is JSON `null`) gives None. */
  datatype JsonCodec = JsonCodec(
    serialize: CaptchaTokenData -> string,
    deserialize: string -> Option<CaptchaTokenData>)

  ghost predicate JsonRoundTrips(json: JsonCodec) {
    forall d :: json.deserialize(json.serialize(d)) == Some(d)
  }

  /** `IDataProtector.Protect` / `Unprotect`; a token that does not unprotect (bad
      format, wrong key, tampering) gives None where the source throws. */
  datatype DataProtector = DataProtector(
    protect: string -> string,
    unprotect: string -> Option<string>)

  /** Unprotect inverts Protect, and a protected payload is never blank. */
  ghost predicate ProtectorRoundTrips(p: DataProtector) {
    forall s :: p.unprotect(p.protect(s)) == Some(s) && !IsNullOrWhiteSpace(p.protect(s))
  }

  /** `IDataProtectionProvider.CreateProtector(purpose)` */
  type DataProtectionProvider = string -> DataProtector

  datatype StatelessCaptcha = StatelessCaptcha(protector: DataProtector, options: StatelessCaptchaOptions)

  /** The primary constructor: the protector is created once, for the fixed purpose. */
  function Create(provider: DataProtectionProvider, options: StatelessCaptchaOptions): (c: StatelessCaptcha)
    ensures c.protector == provider("Edi.Captcha.Stateless") && c.options == options
  {
    StatelessCaptcha(provider(ProtectorPurpose), options)
  }

  // ---------------------------------------------------------------------------
  // Blocked codes: `while (BlockedCodes.Contains(code)) code = GenerateCaptchaCode();`

  /** Whether the retry loop stops at this outcome: a thrown exception, or a code
      that is not blocked. */
  predicate Stops(code: CodeResult, blockedCodes: seq<string>) {
    code.Failure? || code.value !in blockedCodes
  }

  /** The outcome the retry loop ends with when successive `GenerateCaptchaCode`
      calls yield `codes`; None when it would still be looping after all of them. */
  function FirstAllowed(codes: seq<CodeResult>, blockedCodes: seq<string>): (r: Option<CodeResult>)
    ensures r.Some? ==> Stops(r.value, blockedCodes)
    ensures r.Some? ==> exists j | 0 <= j < |codes| ::
              codes[j] == r.value && forall k | 0 <= k < j :: !Stops(codes[k], blockedCodes)
    ensures r.None? <==> forall k | 0 <= k < |codes| :: !Stops(codes[k], blockedCodes)
  {
    if |codes| == 0 then None
    else if Stops(codes[0], blockedCodes) then Some(codes[0])
    else
      var rest := FirstAllowed(codes[1..], blockedCodes);
      assert rest.Some? ==> exists j | 0 <= j < |codes| ::
               codes[j] == rest.value && forall k | 0 <= k < j :: !Stops(codes[k], blockedCodes) by {
        if rest.Some? {
          var j :| 0 <= j < |codes[1..]| && codes[1..][j] == rest.value
                   && forall k | 0 <= k < j :: !Stops(codes[1..][k], blockedCodes);
          assert forall k | 0 <= k < j + 1 :: !Stops(codes[k], blockedCodes) by {
            forall k | 0 <= k < j + 1 ensures !Stops(codes[k], blockedCodes) {
              if k > 0 { assert codes[k] == codes[1..][k - 1]; }
            }
          }
        }
      }
      assert rest.None? ==> forall k | 0 <= k < |codes| :: !Stops(codes[k], blockedCodes) by {
        if rest.None? {
          forall k | 0 <= k < |codes| ensures !Stops(codes[k], blockedCodes) {
            if k > 0 { assert codes[k] == codes[1..][k - 1]; }
          }
        }
      }
      rest
  }

  /** The retry loop itself: draws codes until one is not blocked (or a draw throws). */
  method GenerateUnblockedCode(codes: seq<CodeResult>, blockedCodes: seq<string>) returns (code: CodeResult)
    requires FirstAllowed(codes, blockedCodes).Some?
    ensures Some(code) == FirstAllowed(codes, blockedCodes)
    ensures code.Success? ==> code.value !in blockedCodes
  {
    var k := 0;
    code := codes[0];
    while code.Success? && code.value in blockedCodes
      invariant 0 <= k < |codes| && code == codes[k]
      invariant FirstAllowed(codes[k..], blockedCodes) == FirstAllowed(codes, blockedCodes)
      decreases |codes| - k
    {
      assert codes[k..][1..] == codes[k + 1..];
      k := k + 1;
      code := codes[k];
    }
  }

  /** If every code other than `allowed` is blocked, the loop can only issue `allowed`. */
  lemma OnlyUnblockedCodeIssued(codes: seq<CodeResult>, blockedCodes: seq<string>, allowed: string)
    requires allowed !in blockedCodes
    requires forall k | 0 <= k < |codes| :: codes[k].Success? && (codes[k].value == allowed || codes[k].value in blockedCodes)
    requires exists k | 0 <= k < |codes| :: codes[k].value == allowed
    ensures FirstAllowed(codes, blockedCodes) == Some(Success(allowed))
  {
  }

  // ---------------------------------------------------------------------------
  // Token issue and validation

  /** The token `GenerateCaptcha` issues for `code` at instant `now`:
      `Protect(Serialize({code, now + TokenExpiration}))`. */
  function IssueToken(c: StatelessCaptcha, json: JsonCodec, code: string, now: int): (r: Result<string, CaptchaError>)
    ensures r.Success? <==> 0 <= now + c.options.tokenExpiration <= MaxTicks
  {
    var expiration :- AddTimeSpan(now, c.options.tokenExpiration);
    Success(c.protector.protect(json.serialize(CaptchaTokenData(code, expiration))))
  }

  /** `GenerateCaptcha(width, height)`. `codes` are the outcomes of the successive
      `GenerateCaptchaCode` calls; the loop must reach one that stops it. */
  method GenerateCaptcha(c: StatelessCaptcha, codes: seq<CodeResult>, render: Renderer, json: JsonCodec, now: int,
                         width: int := 100, height: int := 36)
    returns (r: Result<StatelessCaptchaResult, CaptchaError>)
    requires FirstAllowed(codes, c.options.blockedCodes).Some?
    ensures var first := FirstAllowed(codes, c.options.blockedCodes).value;
            match first
            case Failure(e) => r == Failure(e)
            case Success(code) =>
              code !in c.options.blockedCodes &&
              match IssueToken(c, json, code, now)
              case Failure(e) => r == Failure(e)
              case Success(token) =>
                r == Success(StatelessCaptchaResult(
                  render(width, height, code, c.options.fontName, c.options.fontStyle, c.options.drawLines).captchaByteData,
                  token))
  {
    var captchaCode :- GenerateUnblockedCode(codes, c.options.blockedCodes);
    var result := render(width, height, captchaCode, c.options.fontName, c.options.fontStyle, c.options.drawLines);
    var expirationTime :- AddTimeSpan(now, c.options.tokenExpiration);
    var tokenData := CaptchaTokenData(captchaCode, expirationTime);
    var serializedData := json.serialize(tokenData);
    var encryptedToken := c.protector.protect(serializedData);
    r := Success(StatelessCaptchaResult(result.captchaByteData, encryptedToken));
  }

  /** The decision both stateless managers make once the token has been opened:
      `payload` is None when decryption or deserialisation threw. */
  function Verdict(userInput: string, token: string, payload: Option<CaptchaTokenData>, now: int, ignoreCase: bool): (ok: bool)
    ensures ok ==> !IsNullOrWhiteSpace(userInput) && !IsNullOrWhiteSpace(token)
    ensures ok ==> payload.Some? && now <= payload.value.expirationTime
    ensures ok ==> Equals(userInput, payload.value.code, ignoreCase)
  {
    if IsNullOrWhiteSpace(userInput) || IsNullOrWhiteSpace(token) then false
    else
      match payload
      case None => false
      case Some(tokenData) =>
        if now > tokenData.expirationTime then false
        else Equals(userInput, tokenData.code, ignoreCase)
  }

  /** `Unprotect` then `Deserialize`, either of which may throw. */
  function ReadToken(c: StatelessCaptcha, json: JsonCodec, token: string): Option<CaptchaTokenData> {
    match c.protector.unprotect(token)
    case None => None
    case Some(decryptedData) => json.deserialize(decryptedData)
  }

  /** `Validate(userInputCaptcha, captchaToken, ignoreCase)`; never throws. */
  function Validate(c: StatelessCaptcha, json: JsonCodec, userInput: string, token: string, now: int,
                    ignoreCase: bool := true): (ok: bool)
    ensures ok ==> !IsNullOrWhiteSpace(userInput) && !IsNullOrWhiteSpace(token)
    ensures ok ==> ReadToken(c, json, token).Some?
    ensures ok ==> now <= ReadToken(c, json, token).value.expirationTime
    ensures ok ==> Equals(userInput, ReadToken(c, json, token).value.code, ignoreCase)
  {
    Verdict(userInput, token, ReadToken(c, json, token), now, ignoreCase)
  }

  /** The round trip: a token issued at `issuedAt` for `code` accepts exactly the
      non-blank guesses equal to `code` (under the chosen case rule) up to and
      including its expiry instant. */
  lemma ValidateIssuedToken(c: StatelessCaptcha, json: JsonCodec, code: string, issuedAt: int, token: string,
                            userInput: string, now: int, ignoreCase: bool)
    requires ProtectorRoundTrips(c.protector) && JsonRoundTrips(json)
    requires IssueToken(c, json, code, issuedAt) == Success(token)
    ensures Validate(c, json, userInput, token, now, ignoreCase)
        <==> !IsNullOrWhiteSpace(userInput) && now <= issuedAt + c.options.tokenExpiration
             && Equals(userInput, code, ignoreCase)
  {
    var payload := CaptchaTokenData(code, issuedAt + c.options.tokenExpiration);
    assert token == c.protector.protect(json.serialize(payload));
    assert ReadToken(c, json, token) == Some(payload);
  }
}
