# Edi.Captcha — a verified model of the challenge lifecycle

Edi.Captcha is an ASP.NET Core captcha library. It generates a short random code and
renders it as a PNG. Then it binds the code to the client in one of two ways:

- **Session-based** (`BasicLetterCaptcha`): the code is stored in the caller's HTTP session.
- **Stateless**: the code goes into an encrypted, expiring token.
  - `StatelessLetterCaptcha` encrypts with ASP.NET Data Protection.
  - `SharedKeyStatelessLetterCaptcha` encrypts with AES-256-CBC under a shared Base64 key.

It then validates a user's guess against the session entry or the token.

This Dafny project models that lifecycle, one module per source file:

- `SecureCaptchaGenerator` models code generation.
- `SessionBasedCaptcha` and `BasicCaptcha` model the session manager.
- `StatelessCaptcha` and `StatelessLetterCaptcha` model the Data Protection manager.
- `SharedKeyStatelessCaptcha` and `SharedKeyStatelessLetterCaptcha` model the shared-key manager.
  This covers key checking and the IV-prefixed token framing.
- `CaptchaImageGenerator` models the parameter arithmetic of the renderer.

Three support modules hold the rest:

- `Wrappers`: `Option` and `Result`.
- `Text`: .NET whitespace, ordinal and ordinal-ignore-case comparison, and integer formatting.
- `CaptchaTypes`: the exceptions as error values, bytes, `CaptchaResult`, and `DateTime` ticks.

Nothing here runs; every property below is proved by the Dafny verifier.

Modelling choices:

- **Exceptions** become `Failure` values of `CaptchaError`. Each carries the parameter name and message the source uses.
- **Randomness** is an input:
  - the bytes `RandomNumberGenerator.GetBytes` fills;
  - the successive outcomes of `GenerateCaptchaCode` that the blocked-code loop consumes;
  - two draw streams for the renderer's two `System.Random` instances.
- **The clock** is an input: the tick count `now`.
- **Opaque capabilities** are passed in as function values:
  - Data Protection, JSON, AES and Base64;
  - the abstract image renderer and text measurement;
  - the PNG encoder.
- **Round-trip assumptions** about those capabilities are predicates. Only the lemmas that need them require them.

## Model

| member | source | states |
|---|---|---|
| SecureCaptchaGenerator.SecureCode | src/Edi.Captcha/SecureCaptchaGenerator.cs:9-29 | A length outside 1..32 fails with ArgumentOutOfRange, and only then. An empty alphabet with a valid length fails with a division by zero, and only then. A success has exactly `codeLength` characters and is upper case. |
| SecureCaptchaGenerator.GenerateSecureCaptchaCode | src/Edi.Captcha/SecureCaptchaGenerator.cs:9-29 | The StringBuilder loop returns exactly `SecureCode` for the same alphabet, length and random bytes, including both error cases. |
| SecureCaptchaGenerator.CodeCharacter | src/Edi.Captcha/SecureCaptchaGenerator.cs:22-28 | Character `i` of the code is the upper-cased letter at `bytes[i]` modulo the alphabet length. |
| SecureCaptchaGenerator.IndexBound | src/Edi.Captcha/SecureCaptchaGenerator.cs:24 | The byte-modulo index is always a valid position in the alphabet. |
| SecureCaptchaGenerator.CodeDrawnFromLetters | src/Edi.Captcha/SecureCaptchaGenerator.cs:22-28 | Every character of a generated code is an upper-cased character of the alphabet. |
| SecureCaptchaGenerator.SingleLetterAlphabet | src/Edi.Captcha/SecureCaptchaGenerator.cs:22-28 | A one-letter alphabet yields that letter, upper-cased, repeated `codeLength` times, whatever the bytes. |
| SecureCaptchaGenerator.OutOfRangeMessages | src/Edi.Captcha/SecureCaptchaGenerator.cs:11-15 | Length 0 fails at the guard, before any byte is drawn. The message for 33 is "codeLength must range within 1-32, current value is 33". |
| Text.ToUpperIdempotent | src/Edi.Captcha/SecureCaptchaGenerator.cs:28 | Upper-casing twice is upper-casing once, so every generated code is a fixed point of `ToUpper`. |
| Text.CompareZeroIffEquals | src/Edi.Captcha/SessionBasedCaptcha.cs:58-64 | `string.Compare` with a possibly-null right side is 0 exactly when that side is present and equal under the chosen rule. |
| Text.CompareOrdinalZeroIff | src/Edi.Captcha/SessionBasedCaptcha.cs:59 | Ordinal comparison yields 0 exactly on equal strings. |
| Text.CaseSensitivityExample | src/Edi.Captcha/StatelessCaptcha.cs:67-69 | "abcd" matches "ABCD" when case is ignored and does not match when it is not. |
| CaptchaTypes.AddTimeSpan | src/Edi.Captcha/StatelessCaptcha.cs:37 | Adding the expiration succeeds exactly when the result stays within the DateTime range, and the result is then the sum. Otherwise it fails with an out-of-range error. |
| StatelessCaptcha.DefaultOptions | src/Edi.Captcha/StatelessCaptcha.cs:9-16 | The defaults: regular style, no font name, lines drawn, nothing blocked, and 5 minutes. |
| StatelessCaptcha.Create | src/Edi.Captcha/StatelessCaptcha.cs:18-20 | The protector is created with the purpose "Edi.Captcha.Stateless", and the options are kept. |
| StatelessCaptcha.FirstAllowed | src/Edi.Captcha/StatelessCaptcha.cs:26-30 | The retry loop stops at the first outcome that is an error or an unblocked code. It is one of the inputs. The loop does not stop only when every outcome is a blocked code. |
| StatelessCaptcha.GenerateUnblockedCode | src/Edi.Captcha/StatelessCaptcha.cs:26-30 | The while loop returns exactly the outcome `FirstAllowed` picks, so any code it returns is not blocked. |
| StatelessCaptcha.OnlyUnblockedCodeIssued | src/Edi.Captcha/StatelessCaptcha.cs:26-30 | Suppose every draw is either one allowed code or a blocked one, and the allowed code is drawn at some point. Then the allowed code is what gets issued. |
| StatelessCaptcha.IssueToken | src/Edi.Captcha/StatelessCaptcha.cs:34-41 | A token is issued exactly when `now + TokenExpiration` is a valid instant. |
| StatelessCaptcha.GenerateCaptcha | src/Edi.Captcha/StatelessCaptcha.cs:24-48 | The result is either a code-generation error or an out-of-range expiry. Otherwise it is the image rendered for the first unblocked code together with `Protect(Serialize({code, now + expiration}))`. |
| StatelessCaptcha.Verdict | src/Edi.Captcha/StatelessCaptcha.cs:52-73 | Acceptance requires a non-blank guess and token, a readable payload, an unexpired instant and an equal code. |
| StatelessCaptcha.Validate | src/Edi.Captcha/StatelessCaptcha.cs:50-74 | Acceptance requires a non-blank guess and token, a token that unprotects and deserialises, `now <= expiry`, and a guess equal to the code. |
| StatelessCaptcha.ValidateIssuedToken | src/Edi.Captcha/StatelessCaptcha.cs:34-41 | Round trip: a token issued at `t` for `code` accepts a guess exactly when the guess is non-blank, equals `code`, and `now <= t + expiration`. |
| StatelessLetterCaptcha.DefaultOptions | src/Edi.Captcha/StatelessLetterCaptcha.cs:5-9 | The defaults: the letters "2346789ABCDGHKMNPRUVWXYZ", length 4, and the base defaults. |
| StatelessLetterCaptcha.Create | src/Edi.Captcha/StatelessLetterCaptcha.cs:11-13 | The primary constructor passes the options to the base and validates nothing. |
| StatelessLetterCaptcha.GenerateCaptchaCode | src/Edi.Captcha/StatelessLetterCaptcha.cs:15-16 | A code succeeds exactly when the length is valid and the alphabet non-empty. It then has the configured length, is upper case, and is drawn from the alphabet. |
| StatelessLetterCaptcha.Codes | src/Edi.Captcha/StatelessLetterCaptcha.cs:15-16 | One generation outcome per block of random bytes, in order. |
| StatelessLetterCaptcha.DefaultCode | src/Edi.Captcha/StatelessLetterCaptcha.cs:7-8 | With the defaults, every code is 4 characters of the default alphabet. |
| StatelessLetterCaptcha.MixedCaseLetters | src/Edi.Captcha/StatelessLetterCaptcha.cs:15-16 | A mixed-case alphabet still yields upper-case codes drawn from its upper-cased letters. |
| StatelessLetterCaptcha.GenerateCaptcha | src/Edi.Captcha/StatelessLetterCaptcha.cs:11-16 | The base contract over this captcha's successive codes: the first error of the retry loop or of the expiry, or the image rendered for the first unblocked code and its token. An invalid length fails with the length error and an empty alphabet with the division by zero. On success the image bytes are those rendered for the code, and the code is upper-case, of the configured length, and drawn from the alphabet. |
| SharedKeyStatelessCaptcha.Create | src/Edi.Captcha/SharedKeyStatelessCaptcha.cs:25-46 | Four outcomes, checked in this order: null options fail with ArgumentNull; a blank key fails with "SharedKey is required…"; a non-Base64 key fails with "…valid Base64…"; a key that does not decode to 32 bytes fails with "…256-bit (32-byte)…". A non-blank key that decodes to 32 bytes is accepted, and the success keeps those bytes. |
| SharedKeyStatelessCaptcha.Unframe | src/Edi.Captcha/SharedKeyStatelessCaptcha.cs:131-136 | The first 16 bytes are split off as the IV exactly when there are at least 16 bytes, and IV plus remainder is the input. |
| SharedKeyStatelessCaptcha.UnframeFrame | src/Edi.Captcha/SharedKeyStatelessCaptcha.cs:112-136 | Splitting an IV-prefixed frame gives back the IV and the ciphertext. |
| SharedKeyStatelessCaptcha.DecryptEncrypt | src/Edi.Captcha/SharedKeyStatelessCaptcha.cs:102-141 | Under a 32-byte key, `DecryptData(EncryptData(p)) == p` for every plaintext `p` that does not start with U+FEFF (the reading stream would drop it as a byte-order mark), and the token is never blank. |
| SharedKeyStatelessCaptcha.EncryptData | src/Edi.Captcha/SharedKeyStatelessCaptcha.cs:102-121 | The stream writes the IV and then the ciphertext into an array. The result is `Encrypt`: Base64 of the IV followed by the AES-CBC encryption of the UTF-8 text. |
| SharedKeyStatelessCaptcha.DecryptData | src/Edi.Captcha/SharedKeyStatelessCaptcha.cs:123-141 | The IV is copied out byte by byte, then the rest is decrypted. The result is `Decrypt`, which fails on bad Base64, on fewer than 16 bytes, and on a failed decryption. |
| SharedKeyStatelessCaptcha.IssueToken | src/Edi.Captcha/SharedKeyStatelessCaptcha.cs:60-67 | A token is issued exactly when the expiry instant is in range. |
| SharedKeyStatelessCaptcha.GenerateCaptcha | src/Edi.Captcha/SharedKeyStatelessCaptcha.cs:50-74 | The result is either an error, or the rendered image for the first unblocked code together with its encrypted token. |
| SharedKeyStatelessCaptcha.Validate | src/Edi.Captcha/SharedKeyStatelessCaptcha.cs:76-100 | Acceptance requires a non-blank guess and token, a token that decrypts and deserialises, `now <= expiry`, and an equal code. |
| SharedKeyStatelessCaptcha.ValidateIssuedToken | src/Edi.Captcha/SharedKeyStatelessCaptcha.cs:50-100 | Round trip through AES and Base64, given that the serialized payload never starts with U+FEFF: an issued token accepts exactly the non-blank, equal guesses up to its expiry. |
| SharedKeyStatelessLetterCaptcha.DefaultOptions | src/Edi.Captcha/SharedKeyStatelessLetterCaptcha.cs:3-7 | The defaults: the letters "2346789ABCDGHKMNPRUVWXYZ", length 4, and the base defaults with the given key. |
| SharedKeyStatelessLetterCaptcha.Create | src/Edi.Captcha/SharedKeyStatelessLetterCaptcha.cs:9 | Construction succeeds exactly when the base constructor does and otherwise fails with the base constructor's error. A success holds a 32-byte key and the given options. |
| SharedKeyStatelessLetterCaptcha.GenerateCaptchaCode | src/Edi.Captcha/SharedKeyStatelessLetterCaptcha.cs:11-12 | The same properties as the generator: the length, upper case, letters from the alphabet, and the error cases. |
| SharedKeyStatelessLetterCaptcha.Codes | src/Edi.Captcha/SharedKeyStatelessLetterCaptcha.cs:11-12 | One generation outcome per block of random bytes, in order. |
| SharedKeyStatelessLetterCaptcha.GenerateCaptcha | src/Edi.Captcha/SharedKeyStatelessLetterCaptcha.cs:9-12 | The base contract over this captcha's successive codes: the first error of the retry loop or of the expiry, or the image rendered for the first unblocked code and its encrypted token. An invalid length fails with the length error and an empty alphabet with the division by zero. On success the image bytes are those rendered for the code, and the code is upper-case, of the configured length, and drawn from the alphabet. |
| SessionBasedCaptcha.EnsureHttpSession | src/Edi.Captcha/SessionBasedCaptcha.cs:67-74 | A null session fails with ArgumentNull("httpSession") and the AddSession/UseSession message, and only a null session does. |
| SessionBasedCaptcha.GenerateCaptchaImageBytes | src/Edi.Captcha/SessionBasedCaptcha.cs:23-31 | Without a session, fail before any code is generated. Otherwise store the code under `sessionKeyName ?? SessionName`, leave every other entry unchanged, and return the image bytes for that code. |
| SessionBasedCaptcha.GenerateCaptchaImageFileStream | src/Edi.Captcha/SessionBasedCaptcha.cs:33-42 | The same session effect, with the same bytes wrapped as content type "image/png". |
| SessionBasedCaptcha.Validate | src/Edi.Captcha/SessionBasedCaptcha.cs:52-65 | A blank guess is false and leaves the session untouched. A null session is dereferenced. Otherwise the answer is true exactly when the stored entry exists and equals the guess. With `dropSession`, the entry is removed whether or not the guess matched. |
| SessionBasedCaptcha.GenerateThenValidateTwice | src/Edi.Captcha/SessionBasedCaptcha.cs:23-65 | Single use: after a code is issued, the right guess succeeds once, fails the second time, and the entry is gone. |
| SessionBasedCaptcha.Session.SetString | src/Edi.Captcha/SessionBasedCaptcha.cs:29 | Sets one key and leaves the other entries unchanged. |
| SessionBasedCaptcha.Session.GetString | src/Edi.Captcha/SessionBasedCaptcha.cs:58 | The stored value, or null when the key is absent. |
| SessionBasedCaptcha.Session.Remove | src/Edi.Captcha/SessionBasedCaptcha.cs:62 | Removes exactly that key. |
| BasicCaptcha.RegisteredOptions | src/Edi.Captcha/CaptchaServiceCollectionExtensions.cs:8-19 | Without a configuration callback: the letters "2346789ABCDEFGHJKLMNPRTUVWXYZ", session name "CaptchaCode", length 4, regular style, lines drawn. |
| BasicCaptcha.RegisteredCodes | src/Edi.Captcha/CaptchaServiceCollectionExtensions.cs:10-15 | With the registered defaults, every code is 4 characters of the registered alphabet. |
| BasicCaptcha.BasicLetterCaptcha.GenerateCaptchaCode | src/Edi.Captcha/BasicCaptcha.cs:20-21 | The generator's properties for the private options: the length, upper case, the alphabet, and both error cases. |
| BasicCaptcha.BasicLetterCaptcha.constructor | src/Edi.Captcha/BasicCaptcha.cs:14-18 | Both the base `Options` property and the private `_options` start out as the given options. Nothing is validated at construction, so a bad length or an empty alphabet shows up only when a code is generated. |
| BasicCaptcha.BasicLetterCaptcha.GenerateCaptchaImageBytes | src/Edi.Captcha/BasicCaptcha.cs:14-21 | A fresh code is stored in the session and rendered. A bad length or an empty alphabet fails with the generator's own error (the length error or the division by zero) and leaves the session untouched. |
| CaptchaImageGenerator.Next | src/Edi.Captcha/CaptchaImageGenerator.cs:30-31 | `Random.Next(lo, hi)` lies in `[lo, hi)`, or is `lo` when `lo == hi`. |
| CaptchaImageGenerator.DeepColor | src/Edi.Captcha/CaptchaImageGenerator.cs:77-81 | Red is below 160, green below 100, and blue below 160. |
| CaptchaImageGenerator.LightChannel | src/Edi.Captcha/CaptchaImageGenerator.cs:48-51 | `Next(255) % 75 + 180` lies in [180, 254]. |
| CaptchaImageGenerator.Background | src/Edi.Captcha/CaptchaImageGenerator.cs:48-52 | Every background channel lies in [180, 254]. |
| CaptchaImageGenerator.GlyphAt | src/Edi.Captcha/CaptchaImageGenerator.cs:28-36 | Glyph `j` shows character `j`. Its x is the running cursor plus 5..9, its y is 6..12, and its colour is deep. |
| CaptchaImageGenerator.RotationOf | src/Edi.Captcha/CaptchaImageGenerator.cs:40-44 | The angle lies in [-9, 9]. The pivot x lies in [10, width), or is exactly 10 when width is 10; the same holds for y. |
| CaptchaImageGenerator.LineAt | src/Edi.Captcha/CaptchaImageGenerator.cs:59-62 | A noise line has a deep colour, and both its end points lie on the canvas. |
| CaptchaImageGenerator.LineCountBounds | src/Edi.Captcha/CaptchaImageGenerator.cs:57 | Although the bound is re-drawn on every test, the loop always draws between 3 and 6 lines. |
| CaptchaImageGenerator.LineCountUnique | src/Edi.Captcha/CaptchaImageGenerator.cs:57 | The draws determine the number of lines. |
| CaptchaImageGenerator.LinesInCanvas | src/Edi.Captcha/CaptchaImageGenerator.cs:57-63 | Every noise line is deep-coloured and lies inside the canvas. |
| CaptchaImageGenerator.DrawGlyphs | src/Edi.Captcha/CaptchaImageGenerator.cs:23-36 | The foreach with its `position` accumulator yields one glyph per character, in order, each as `GlyphAt` describes. |
| CaptchaImageGenerator.DrawLines | src/Edi.Captcha/CaptchaImageGenerator.cs:57-63 | The for loop stops at the first failing bound test, and the lines drawn are exactly the `LineAt` sequence up to that point. |
| CaptchaImageGenerator.GetImage | src/Edi.Captcha/CaptchaImageGenerator.cs:15-82 | Errors, in source order: a non-positive size is rejected by the image constructor; then an empty code divides by zero; then a side below 10 makes `Next(10, side)` throw. Otherwise the result carries the input code, the PNG of the canvas and the clock reading. The canvas has font size `width` divided by the code length, the glyphs, the rotation, the background and the noise lines as above. |
| CaptchaImageGenerator.GlyphsAdvance | src/Edi.Captcha/CaptchaImageGenerator.cs:30-35 | When a character is at least 5 px wide, the next glyph starts to its right. |
| CaptchaImageGenerator.InkContrastsBackground | src/Edi.Captcha/CaptchaImageGenerator.cs:48-81 | Every channel of a deep ink colour is darker than the matching background channel. |

## Left out

- The HTTP middleware (`SessionCaptchaImageMiddleware.cs`): path dispatch, headers, the asynchronous body write and its 640×480 clamp are I/O plumbing.
- Dependency-injection wiring beyond the default options, the sample application, and the MVC view models.
- Pixel work: drawing, the affine transform, layer merging and PNG encoding (ImageSharp) are one opaque encoder over the canvas description.
- Text widths are whole pixels rather than `float`, and the cursor is an integer.
- Font creation, including a font of size 0 when the code is longer than the width, is not modelled.
- Cryptography: Data Protection, AES-CBC, the UTF-8 stream, Base64 and JSON are opaque functions.
  - Their round-trip behaviour is a stated assumption.
  - The AES round trip is assumed only for texts that do not start with U+FEFF. The writing `StreamWriter` encodes that character as EF BB BF, and the reading `StreamReader` drops those bytes as a byte-order mark, so such a text comes back without its first character. The shared-key token round trip therefore also assumes that the JSON serializer never emits a leading U+FEFF, which holds because a serialized object starts with `{`.
  - Tamper resistance and secrecy belong to them and are not claimed.
- The 6-argument `CaptchaImageGenerator.GetImage` overload that the managers call is not part of this model. The managers take it as an abstract renderer that returns the code it was given. The exceptions it throws (a non-positive width or height, a blank code, a blank font name) are therefore not modelled on the manager paths.
- CaptchaImageGenerator.GetImage: the 3-argument overload has no font name, style or `DrawLines` argument. It always draws the noise lines, so "lines are optional" describes only the overload that is not modelled.
- Null strings: a null guess, token or shared key behaves like an empty one, as `string.IsNullOrWhiteSpace` treats them. Null `Letters`, a null `SessionName`, a null code passed to the renderer, and a JSON payload with a null code are not modelled.
- Case mapping is ASCII-only. Culture-specific and non-ASCII `ToUpper` and `OrdinalIgnoreCase` behaviour is not modelled.
- Characters are UTF-16 code units in .NET but Dafny `char` values are Unicode scalar values. For letters outside the Basic Multilingual Plane, the model's alphabet length, code length and `randomIndex % letters.Length` index therefore differ from .NET's, which counts such a letter as two code units.
- SecureCaptchaGenerator.SecureCode: the slight modulo bias of `byte % |letters|` is a property of the distribution, which the model does not state.
- StatelessCaptcha.GenerateCaptcha: the retry loop is modelled only when some outcome stops it. A generator that keeps producing blocked codes forever is not modelled.
- SharedKeyStatelessCaptcha.GenerateCaptcha: the IV from `Aes.GenerateIV` is an input.
- BasicCaptcha.BasicLetterCaptcha: reassigning the public `Options` property after construction changes the session name used. It does not change `_options`, which still drives generation. The model keeps both fields but states nothing about later reassignment.
- Later mutation of an options object shared with the caller (the stateless managers keep references) is not modelled. Options are values.
- Concurrency and the wall clock: `DateTimeOffset.UtcNow` and `DateTime.UtcNow` are the `now` input.
