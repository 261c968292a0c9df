/** `SecureCaptchaGenerator.GenerateSecureCaptchaCode`: checks the requested length,
    draws one random byte per character and maps each byte onto the alphabet by
    `byte % |letters|`, then upper-cases the whole code. The bytes that
    `RandomNumberGenerator.GetBytes` writes are a parameter. */
module SecureCaptchaGenerator {
  import opened Wrappers
  import opened Text
  import opened CaptchaTypes

  const MinCodeLength: int := 1
  const MaxCodeLength: int := 32

  predicate ValidCodeLength(codeLength: int) {
    MinCodeLength <= codeLength <= MaxCodeLength
  }

  /** The ArgumentOutOfRangeException thrown for a length outside 1..32. */
  function CodeLengthOutOfRange(codeLength: int): CaptchaError {
    ArgumentOutOfRange(Some("codeLength"),
      Some("codeLength must range within 1-32, current value is " + IntToString(codeLength)))
  }

  /** The character the loop appends for random byte `b`. */
  function Pick(letters: string, b: byte): char
    requires |letters| > 0
  {
    letters[b as int % |letters|]
  }

  /** The `StringBuilder` contents once the loop has run over `bytes`. */
  function Picked(letters: string, bytes: seq<byte>): string
    requires |letters| > 0
  {
    seq(|bytes|, i requires 0 <= i < |bytes| => Pick(letters, bytes[i]))
  }

  /** What `GenerateSecureCaptchaCode(letters, codeLength)` returns or throws when
      the generator yields `randomBytes`. */
  function SecureCode(letters: string, codeLength: int, randomBytes: seq<byte>): (r: CodeResult)
    requires ValidCodeLength(codeLength) ==> |randomBytes| == codeLength
    ensures !ValidCodeLength(codeLength) <==> r == Failure(CodeLengthOutOfRange(codeLength))
    ensures ValidCodeLength(codeLength) && |letters| == 0 <==> r == Failure(DivideByZero)
    ensures r.Success? ==> |r.value| == codeLength && IsUpperCase(r.value)
  {
    if !ValidCodeLength(codeLength) then
      Failure(CodeLengthOutOfRange(codeLength))
    else if |letters| == 0 then
      Failure(DivideByZero)
    else
      ToUpperIdempotent(Picked(letters, randomBytes));
      Success(ToUpper(Picked(letters, randomBytes)))
  }

  /** The loop of the source: one byte, one index, one appended letter per step;
      an empty alphabet throws at the first `%`. */
  method GenerateSecureCaptchaCode(letters: string, codeLength: int, randomBytes: seq<byte>)
    returns (r: CodeResult)
    requires ValidCodeLength(codeLength) ==> |randomBytes| == codeLength
    ensures r == SecureCode(letters, codeLength, randomBytes)
  {
    if codeLength < 1 || codeLength > 32 {
      return Failure(CodeLengthOutOfRange(codeLength));
    }
    var bytes := randomBytes;
    var sb: string := [];
    for i := 0 to codeLength
      invariant |sb| == i
      invariant i > 0 ==> |letters| > 0
      invariant forall j | 0 <= j < i :: sb[j] == letters[bytes[j] as int % |letters|]
    {
      if |letters| == 0 {
        return Failure(DivideByZero);
      }
      var index := bytes[i] as int % |letters|;
      sb := sb + [letters[index]];
    }
    assert sb == Picked(letters, bytes);
    r := Success(ToUpper(sb));
  }

  /** Character `i` of the code is the upper-cased letter its random byte selects. */
  lemma CodeCharacter(letters: string, codeLength: int, randomBytes: seq<byte>, i: int)
    requires ValidCodeLength(codeLength) && |randomBytes| == codeLength && |letters| > 0
    requires 0 <= i < codeLength
    ensures SecureCode(letters, codeLength, randomBytes).Success?
    ensures SecureCode(letters, codeLength, randomBytes).value[i]
         == ToUpperChar(letters[randomBytes[i] as int % |letters|])
  {
  }

  /** The selected index stays below the alphabet size and below 256: a letter at
      position 256 or later is never chosen. */
  lemma IndexBound(letters: string, b: byte)
    requires |letters| > 0
    ensures 0 <= b as int % |letters| < |letters|
    ensures b as int % |letters| < 256
  {
  }

  /** Every character of a code is the upper-case form of some letter of the alphabet. */
  lemma CodeDrawnFromLetters(letters: string, codeLength: int, randomBytes: seq<byte>)
    requires ValidCodeLength(codeLength) ==> |randomBytes| == codeLength
    requires SecureCode(letters, codeLength, randomBytes).Success?
    ensures forall c | c in SecureCode(letters, codeLength, randomBytes).value :: c in ToUpper(letters)
  {
    var code := SecureCode(letters, codeLength, randomBytes).value;
    forall c | c in code
      ensures c in ToUpper(letters)
    {
      var i :| 0 <= i < |code| && code[i] == c;
      var k := randomBytes[i] as int % |letters|;
      assert ToUpper(letters)[k] == c;
    }
  }

  /** A one-letter alphabet gives that letter, upper-cased, `codeLength` times. */
  lemma SingleLetterAlphabet(x: char, codeLength: int, randomBytes: seq<byte>)
    requires ValidCodeLength(codeLength) && |randomBytes| == codeLength
    ensures SecureCode([x], codeLength, randomBytes)
         == Success(seq(codeLength, _ => ToUpperChar(x)))
  {
    var code := SecureCode([x], codeLength, randomBytes).value;
    forall i | 0 <= i < codeLength
      ensures code[i] == ToUpperChar(x)
    {
      assert randomBytes[i] as int % 1 == 0;
    }
    assert code == seq(codeLength, _ => ToUpperChar(x));
  }

  /** The length check reports the value it rejected, as the source's tests expect
      ("current value is 33" for 33, "current value is -1" for -1). */
  lemma OutOfRangeMessages()
    ensures IntToString(33) == "33" && IntToString(-1) == "-1"
    ensures SecureCode("ABC", 0, []) == Failure(CodeLengthOutOfRange(0))
    ensures CodeLengthOutOfRange(33).message
         == Some("codeLength must range within 1-32, current value is 33")
  {
    assert NatToString(3) == "3";
    assert NatToString(33) == NatToString(3) + "3";
    assert NatToString(1) == "1";
    assert IntToString(33) == "33";
    var prefix := "codeLength must range within 1-32, current value is ";
    assert prefix + "33" == "codeLength must range within 1-32, current value is 33";
  }
}
