/** `SharedKeyStatelessCaptcha`: the stateless challenge for several servers sharing
    one operator-supplied 256-bit key. The token is the Base64 form (section 4 of
    RFC 4648) of a 16-byte IV followed by the AES ciphertext (FIPS 197 in the CBC
    mode of NIST SP 800-38A section 6.2) of the JSON payload. Base64, AES with its
    UTF-8 stream and JSON are opaque capabilities given as function values. */
module SharedKeyStatelessCaptcha {
  import opened Wrappers
  import opened Text
  import opened CaptchaTypes
  import StatelessCaptcha

  /** 256 bits */
  const KeySize: int := 32
  /** The AES block size, which is the IV size. */
  const IvSize: int := 16

  const KeyRequiredMessage: string := "SharedKey is required for cluster deployments"
  const KeyLengthMessage: string := "SharedKey must be a 256-bit (32-byte) key encoded as Base64"
  const KeyFormatMessage: string := "SharedKey must be a valid Base64 encoded string"

  datatype SharedKeyStatelessCaptchaOptions = SharedKeyStatelessCaptchaOptions(
    common: StatelessCaptcha.StatelessCaptchaOptions,
    sharedKey: string)

  /** `Convert.ToBase64String` / `Convert.FromBase64String`; None where the latter
      throws `FormatException`. */
  datatype Base64Codec = Base64Codec(encode: seq<byte> -> string, decode: string -> Option<seq<byte>>)

  /** Decoding inverts encoding, and the encoding of a non-empty array is never blank. */
  ghost predicate Base64RoundTrips(b: Base64Codec) {
    forall bytes :: b.decode(b.encode(bytes)) == Some(bytes)
                    && (|bytes| > 0 ==> !IsNullOrWhiteSpace(b.encode(bytes)))
  }

  /** An AES encryptor writing UTF-8 text through a `CryptoStream`, and the matching
      decryptor read back through a `StreamReader`; None where decryption throws
      (bad padding, wrong key, truncated input). */
  datatype AesCbc = AesCbc(
    encrypt: (seq<byte>, seq<byte>, string) -> seq<byte>,
    decrypt: (seq<byte>, seq<byte>, seq<byte>) -> Option<string>)

  /** Text whose UTF-8 form begins with EF BB BF, which the reading `StreamReader`
      takes for a byte-order mark and drops. */
  predicate StartsWithBom(text: string) {
    |text| > 0 && text[0] == '\U{FEFF}'
  }

  /** Decryption inverts encryption for every text the UTF-8 stream carries through
      unchanged, that is every text not starting with U+FEFF. */
  ghost predicate AesRoundTrips(aes: AesCbc) {
    forall key, iv, text | |key| == KeySize && |iv| == IvSize && !StartsWithBom(text) ::
      aes.decrypt(key, iv, aes.encrypt(key, iv, text)) == Some(text)
  }

  /** A serialized payload is a JSON object, so it starts with `{` and never with U+FEFF. */
  ghost predicate SerializesWithoutBom(json: StatelessCaptcha.JsonCodec) {
    forall d :: !StartsWithBom(json.serialize(d))
  }

  datatype SharedKeyStatelessCaptcha = SharedKeyStatelessCaptcha(
    sharedKey: seq<byte>,
    options: SharedKeyStatelessCaptchaOptions)

  /** The constructor: null options, a blank key, a key that is not Base64 and a key
      of other than 32 bytes are each rejected with their own exception. The
      length error is an `ArgumentException`, which the `catch (FormatException)`
      lets through. */
  function Create(options: Option<SharedKeyStatelessCaptchaOptions>, base64: Base64Codec)
    : (r: Result<SharedKeyStatelessCaptcha, CaptchaError>)
    ensures options.None? ==> r == Failure(ArgumentNull(Some("options"), None))
    ensures (options.Some? && IsNullOrWhiteSpace(options.value.sharedKey)) ==>
              r == Failure(Argument(Some("options"), Some(KeyRequiredMessage)))
    ensures (options.Some? && !IsNullOrWhiteSpace(options.value.sharedKey)
             && base64.decode(options.value.sharedKey).None?) ==>
              r == Failure(Argument(None, Some(KeyFormatMessage)))
    ensures (options.Some? && !IsNullOrWhiteSpace(options.value.sharedKey)
             && base64.decode(options.value.sharedKey).Some?
             && |base64.decode(options.value.sharedKey).value| != KeySize) ==>
              r == Failure(Argument(None, Some(KeyLengthMessage)))
    ensures (options.Some? && !IsNullOrWhiteSpace(options.value.sharedKey)
             && base64.decode(options.value.sharedKey).Some?
             && |base64.decode(options.value.sharedKey).value| == KeySize) ==> r.Success?
    ensures r.Success? ==>
              && r.value.options == options.value
              && Some(r.value.sharedKey) == base64.decode(options.value.sharedKey)
              && |r.value.sharedKey| == KeySize
  {
    if options.None? then
      Failure(ArgumentNull(Some("options"), None))
    else if IsNullOrWhiteSpace(options.value.sharedKey) then
      Failure(Argument(Some("options"), Some(KeyRequiredMessage)))
    else
      match base64.decode(options.value.sharedKey)
      case None => Failure(Argument(None, Some(KeyFormatMessage)))
      case Some(sharedKey) =>
        if |sharedKey| != KeySize then Failure(Argument(None, Some(KeyLengthMessage)))
        else Success(SharedKeyStatelessCaptcha(sharedKey, options.value))
  }

  // ---------------------------------------------------------------------------
  // Token framing: IV first, then the ciphertext

  /** The bytes of the `MemoryStream` once the IV and then the ciphertext are written. */
  function Frame(iv: seq<byte>, ciphertext: seq<byte>): seq<byte> {
    iv + ciphertext
  }

  /** Splits decoded bytes into the IV and the ciphertext; None where `Array.Copy`
      throws because fewer than 16 bytes are there. */
  function Unframe(bytes: seq<byte>): (r: Option<(seq<byte>, seq<byte>)>)
    ensures r.Some? <==> |bytes| >= IvSize
    ensures r.Some? ==> |r.value.0| == IvSize && r.value.0 + r.value.1 == bytes
  {
    if |bytes| < IvSize then None else Some((bytes[..IvSize], bytes[IvSize..]))
  }

  /** Framing and unframing are inverse for a 16-byte IV. */
  lemma UnframeFrame(iv: seq<byte>, ciphertext: seq<byte>)
    requires |iv| == IvSize
    ensures Unframe(Frame(iv, ciphertext)) == Some((iv, ciphertext))
  {
    assert Frame(iv, ciphertext)[..IvSize] == iv;
    assert Frame(iv, ciphertext)[IvSize..] == ciphertext;
  }

  /** The token `EncryptData(plainText)` returns when the IV drawn is `iv`. */
  function Encrypt(c: SharedKeyStatelessCaptcha, base64: Base64Codec, aes: AesCbc, plainText: string, iv: seq<byte>)
    : string
  {
    base64.encode(Frame(iv, aes.encrypt(c.sharedKey, iv, plainText)))
  }

  /** What `DecryptData(cipherText)` returns; None wherever it throws. */
  function Decrypt(c: SharedKeyStatelessCaptcha, base64: Base64Codec, aes: AesCbc, cipherText: string)
    : Option<string>
  {
    match base64.decode(cipherText)
    case None => None
    case Some(cipherBytes) =>
      match Unframe(cipherBytes)
      case None => None
      case Some((iv, ciphertext)) => aes.decrypt(c.sharedKey, iv, ciphertext)
  }

  /** Decrypt inverts Encrypt under a 32-byte key and a 16-byte IV. */
  lemma DecryptEncrypt(c: SharedKeyStatelessCaptcha, base64: Base64Codec, aes: AesCbc, plainText: string, iv: seq<byte>)
    requires Base64RoundTrips(base64) && AesRoundTrips(aes)
    requires |c.sharedKey| == KeySize && |iv| == IvSize && !StartsWithBom(plainText)
    ensures Decrypt(c, base64, aes, Encrypt(c, base64, aes, plainText, iv)) == Some(plainText)
    ensures !IsNullOrWhiteSpace(Encrypt(c, base64, aes, plainText, iv))
  {
    var ciphertext := aes.encrypt(c.sharedKey, iv, plainText);
    assert base64.decode(base64.encode(Frame(iv, ciphertext))) == Some(Frame(iv, ciphertext));
    UnframeFrame(iv, ciphertext);
  }

  /** `EncryptData`: the IV is written to the buffer first, then the ciphertext. */
  method EncryptData(c: SharedKeyStatelessCaptcha, base64: Base64Codec, aes: AesCbc, plainText: string, iv: seq<byte>)
    returns (token: string)
    requires |iv| == IvSize
    ensures token == Encrypt(c, base64, aes, plainText, iv)
  {
    var ciphertext := aes.encrypt(c.sharedKey, iv, plainText);
    var ms := new byte[|iv| + |ciphertext|];
    for i := 0 to |iv|
      invariant ms[..i] == iv[..i]
    {
      ms[i] := iv[i];
    }
    for j := 0 to |ciphertext|
      invariant ms[..|iv|] == iv
      invariant ms[|iv|..|iv| + j] == ciphertext[..j]
    {
      ms[|iv| + j] := ciphertext[j];
      assert ms[|iv|..|iv| + j + 1] == ms[|iv|..|iv| + j] + [ms[|iv| + j]];
    }
    assert ms[..] == ms[..|iv|] + ms[|iv|..|iv| + |ciphertext|];
    assert ms[..] == Frame(iv, ciphertext);
    token := base64.encode(ms[..]);
  }

  /** `DecryptData`: decode, copy the first 16 bytes into the IV, decrypt the rest. */
  method DecryptData(c: SharedKeyStatelessCaptcha, base64: Base64Codec, aes: AesCbc, cipherText: string)
    returns (plainText: Option<string>)
    ensures plainText == Decrypt(c, base64, aes, cipherText)
  {
    var decoded := base64.decode(cipherText);
    if decoded.None? {
      return None;
    }
    var cipherBytes := decoded.value;
    if |cipherBytes| < IvSize {
      return None;
    }
    var iv := new byte[IvSize];
    for i := 0 to IvSize
      invariant iv[..i] == cipherBytes[..i]
    {
      iv[i] := cipherBytes[i];
    }
    assert iv[..] == iv[..IvSize] == cipherBytes[..IvSize];
    assert Unframe(cipherBytes) == Some((iv[..], cipherBytes[IvSize..]));
    plainText := aes.decrypt(c.sharedKey, iv[..], cipherBytes[IvSize..]);
  }

  // ---------------------------------------------------------------------------
  // Generate and validate

  /** The token `GenerateCaptcha` issues for `code` at `now` with IV `iv`. */
  function IssueToken(c: SharedKeyStatelessCaptcha, base64: Base64Codec, aes: AesCbc, json: StatelessCaptcha.JsonCodec,
                      code: string, now: int, iv: seq<byte>): (r: Result<string, CaptchaError>)
    ensures r.Success? <==> 0 <= now + c.options.common.tokenExpiration <= MaxTicks
  {
    var expiration :- AddTimeSpan(now, c.options.common.tokenExpiration);
    Success(Encrypt(c, base64, aes, json.serialize(StatelessCaptcha.CaptchaTokenData(code, expiration)), iv))
  }

  /** `GenerateCaptcha(width, height)`; `codes` are the successive
      `GenerateCaptchaCode` outcomes and `iv` the IV `Aes.GenerateIV` draws. */
  method GenerateCaptcha(c: SharedKeyStatelessCaptcha, base64: Base64Codec, aes: AesCbc, json: StatelessCaptcha.JsonCodec,
                         codes: seq<CodeResult>, render: Renderer, now: int, iv: seq<byte>,
                         width: int := 100, height: int := 36)
    returns (r: Result<StatelessCaptchaResult, CaptchaError>)
    requires |iv| == IvSize
    requires StatelessCaptcha.FirstAllowed(codes, c.options.common.blockedCodes).Some?
    ensures var first := StatelessCaptcha.FirstAllowed(codes, c.options.common.blockedCodes).value;
            match first
            case Failure(e) => r == Failure(e)
            case Success(code) =>
              code !in c.options.common.blockedCodes &&
              match IssueToken(c, base64, aes, json, code, now, iv)
              case Failure(e) => r == Failure(e)
              case Success(token) =>
                r == Success(StatelessCaptchaResult(
                  render(width, height, code, c.options.common.fontName, c.options.common.fontStyle,
                         c.options.common.drawLines).captchaByteData,
                  token))
  {
    var o := c.options.common;
    var captchaCode :- StatelessCaptcha.GenerateUnblockedCode(codes, o.blockedCodes);
    var result := render(width, height, captchaCode, o.fontName, o.fontStyle, o.drawLines);
    var expirationTime :- AddTimeSpan(now, o.tokenExpiration);
    var tokenData := StatelessCaptcha.CaptchaTokenData(captchaCode, expirationTime);
    var serializedData := json.serialize(tokenData);
    var encryptedToken := EncryptData(c, base64, aes, serializedData, iv);
    r := Success(StatelessCaptchaResult(result.captchaByteData, encryptedToken));
  }

  /** `DecryptData` then `Deserialize`, either of which may throw. */
  function ReadToken(c: SharedKeyStatelessCaptcha, base64: Base64Codec, aes: AesCbc, json: StatelessCaptcha.JsonCodec,
                     token: string): Option<StatelessCaptcha.CaptchaTokenData>
  {
    match Decrypt(c, base64, aes, token)
    case None => None
    case Some(decryptedData) => json.deserialize(decryptedData)
  }

  /** Whether `Validate` accepts; the same decision as the data-protection variant. */
  predicate Accepts(c: SharedKeyStatelessCaptcha, base64: Base64Codec, aes: AesCbc, json: StatelessCaptcha.JsonCodec,
                    userInput: string, token: string, now: int, ignoreCase: bool)
  {
    StatelessCaptcha.Verdict(userInput, token, ReadToken(c, base64, aes, json, token), now, ignoreCase)
  }

  /** `Validate(userInputCaptcha, captchaToken, ignoreCase)`: every failure inside
      the `try` (bad Base64, fewer than 16 bytes, bad padding, bad JSON) is false. */
  method Validate(c: SharedKeyStatelessCaptcha, base64: Base64Codec, aes: AesCbc, json: StatelessCaptcha.JsonCodec,
                  userInput: string, token: string, now: int, ignoreCase: bool := true)
    returns (ok: bool)
    ensures ok == Accepts(c, base64, aes, json, userInput, token, now, ignoreCase)
    ensures ok ==> !IsNullOrWhiteSpace(userInput) && !IsNullOrWhiteSpace(token)
    ensures ok ==> ReadToken(c, base64, aes, json, token).Some?
    ensures ok ==> now <= ReadToken(c, base64, aes, json, token).value.expirationTime
  {
    if IsNullOrWhiteSpace(userInput) || IsNullOrWhiteSpace(token) {
      return false;
    }
    var decryptedData := DecryptData(c, base64, aes, token);
    if decryptedData.None? {
      return false;
    }
    var tokenData := json.deserialize(decryptedData.value);
    if tokenData.None? {
      return false;
    }
    if now > tokenData.value.expirationTime {
      return false;
    }
    ok := Equals(userInput, tokenData.value.code, ignoreCase);
  }

  /** The round trip: a token issued at `issuedAt` for `code` accepts exactly the
      non-blank guesses equal to `code` up to and including its expiry. */
  lemma ValidateIssuedToken(c: SharedKeyStatelessCaptcha, base64: Base64Codec, aes: AesCbc,
                            json: StatelessCaptcha.JsonCodec, code: string, issuedAt: int, iv: seq<byte>,
                            token: string, userInput: string, now: int, ignoreCase: bool)
    requires Base64RoundTrips(base64) && AesRoundTrips(aes) && StatelessCaptcha.JsonRoundTrips(json)
    requires SerializesWithoutBom(json)
    requires |c.sharedKey| == KeySize && |iv| == IvSize
    requires IssueToken(c, base64, aes, json, code, issuedAt, iv) == Success(token)
    ensures Accepts(c, base64, aes, json, userInput, token, now, ignoreCase)
        <==> !IsNullOrWhiteSpace(userInput) && now <= issuedAt + c.options.common.tokenExpiration
             && Equals(userInput, code, ignoreCase)
  {
    var payload := StatelessCaptcha.CaptchaTokenData(code, issuedAt + c.options.common.tokenExpiration);
    DecryptEncrypt(c, base64, aes, json.serialize(payload), iv);
    assert ReadToken(c, base64, aes, json, token) == Some(payload);
  }
}
