/**
 * The free helpers of the app: Swift's decimal rendering of an `Int` inside string
 * interpolation, the storage paths of uploaded images and audio, the lowercase hexadecimal
 * digest string, and the login nonce drawn from random bytes by rejection sampling.
 */
module Utils {
  import opened Wrappers
  import Lessons

  // ---------------------------------------------------------------- decimal rendering

  const Digits: string := "0123456789"

  function DigitChar(d: nat): char
    requires d < 10
  {
    Digits[d]
  }

  predicate IsDigit(c: char) {
    '0' <= c <= '9'
  }

  function DigitValue(c: char): nat
    requires IsDigit(c)
  {
    (c as int - '0' as int) as nat
  }

  lemma DigitCharValue(d: nat)
    requires d < 10
    ensures IsDigit(DigitChar(d)) && DigitValue(DigitChar(d)) == d
  {
  }

  /** `"\(n)"` for `n >= 0`: the shortest decimal numeral, most significant digit first. */
  function NatToString(n: nat): (r: string)
    ensures |r| >= 1
    ensures forall i :: 0 <= i < |r| ==> IsDigit(r[i])
    ensures |r| > 1 ==> r[0] != '0'
    decreases n
  {
    DigitCharValue(n % 10);
    if n < 10 then [DigitChar(n)] else NatToString(n / 10) + [DigitChar(n % 10)]
  }

  /** `"\(n)"` for any `Int`: a minus sign before the magnitude of a negative number. */
  function IntToString(n: int): (r: string)
    ensures |r| >= 1
    ensures (r[0] == '-') <==> n < 0
  {
    if n < 0 then "-" + NatToString(-n) else NatToString(n)
  }

  /** The value of a string of digits. */
  function ParseDigits(s: string): nat
    requires forall i :: 0 <= i < |s| ==> IsDigit(s[i])
  {
    if s == [] then 0 else ParseDigits(s[..|s| - 1]) * 10 + DigitValue(s[|s| - 1])
  }

  /** A decimal numeral with an optional leading minus, as `Int(_:)` reads one. */
  function ParseInt(s: string): Option<int> {
    if |s| >= 2 && s[0] == '-' && forall i :: 1 <= i < |s| ==> IsDigit(s[i]) then
      Some(0 - ParseDigits(s[1..]) as int)
    else if s != [] && forall i :: 0 <= i < |s| ==> IsDigit(s[i]) then
      Some(ParseDigits(s))
    else
      None
  }

  lemma {:induction false} ParseNatToString(n: nat)
    ensures ParseDigits(NatToString(n)) == n
    decreases n
  {
    DigitCharValue(n % 10);
    if n >= 10 {
      var r := NatToString(n);
      assert r[..|r| - 1] == NatToString(n / 10);
      ParseNatToString(n / 10);
    }
  }

  /** Rendering loses nothing: the numeral reads back as the same number. */
  lemma IntToStringRoundTrip(n: int)
    ensures ParseInt(IntToString(n)) == Some(n)
  {
    var r := IntToString(n);
    if n < 0 {
      var digits := NatToString(-n);
      assert r[1..] == digits;
      assert forall i :: 1 <= i < |r| ==> r[i] == digits[i - 1];
      ParseNatToString(-n);
    } else {
      assert r[0] != '-';
      ParseNatToString(n);
    }
  }

  /** Distinct numbers give distinct numerals, so numbers in paths never collide. */
  lemma IntToStringInjective(m: int, n: int)
    ensures IntToString(m) == IntToString(n) ==> m == n
  {
    IntToStringRoundTrip(m);
    IntToStringRoundTrip(n);
  }

  // ---------------------------------------------------------------- storage paths

  /** `createImageFilePath(unit:lessonNumber:id:)`: where a card's picture is uploaded. */
  function ImageFilePath(unit: Lessons.Unit, lessonNumber: int, id: string): (r: string)
    ensures "images/unit_" <= r && |r| >= 16 + |id| && r[|r| - 4 - |id|..] == id + ".jpg"
  {
    "images/unit_" + IntToString(unit.unitNumber) + "_language_" + unit.language +
      "_lesson_" + IntToString(lessonNumber) + "_id_" + id + ".jpg"
  }

  /** `createAudioPath(unit:lessonNumber:id:)`: where a card's recording is uploaded. */
  function AudioPath(unit: Lessons.Unit, lessonNumber: int, id: string): (r: string)
    ensures "audios/unit_" <= r && |r| >= 16 + |id| && r[|r| - 4 - |id|..] == id + ".mp3"
  {
    "audios/unit_" + IntToString(unit.unitNumber) + "_language_" + unit.language +
      "_lesson_" + IntToString(lessonNumber) + "_id_" + id + ".mp3"
  }

  /** A picture and a recording of the same card never share a path. */
  lemma ImageAndAudioPathsDiffer(unit: Lessons.Unit, lessonNumber: int, id: string, unit': Lessons.Unit, lessonNumber': int, id': string)
    ensures ImageFilePath(unit, lessonNumber, id) != AudioPath(unit', lessonNumber', id')
  {
    assert ImageFilePath(unit, lessonNumber, id)[0] == 'i';
    assert AudioPath(unit', lessonNumber', id')[0] == 'a';
  }

  /** Two cards of one lesson with different ids upload their pictures to different paths. */
  lemma ImagePathsSeparateCards(unit: Lessons.Unit, lessonNumber: int, id: string, id': string)
    requires id != id'
    ensures ImageFilePath(unit, lessonNumber, id) != ImageFilePath(unit, lessonNumber, id')
  {
    var prefix := "images/unit_" + IntToString(unit.unitNumber) + "_language_" + unit.language +
      "_lesson_" + IntToString(lessonNumber) + "_id_";
    var a := ImageFilePath(unit, lessonNumber, id);
    var b := ImageFilePath(unit, lessonNumber, id');
    assert a == prefix + id + ".jpg";
    assert b == prefix + id' + ".jpg";
    if |id| == |id'| {
      assert a[|prefix|..|prefix| + |id|] == id;
      assert b[|prefix|..|prefix| + |id|] == id';
    } else {
      assert |a| != |b|;
    }
  }

  /** `createImagePath(unitNumber:selectedLanguage:)`: a unit cover, named by the lowercase language. */
  function UnitImagePath(unitNumber: int, languageLowercased: string): (r: string)
    ensures "images/unit_" <= r && |r| >= 17 + |languageLowercased| && r[|r| - 4 - |languageLowercased|..] == languageLowercased + ".jpg"
  {
    "images/unit_" + IntToString(unitNumber) + "_" + languageLowercased + ".jpg"
  }

  /** Two units of one language get different covers: the unit number is read back from the path. */
  lemma UnitImagePathsSeparateUnits(m: int, n: int, languageLowercased: string)
    requires m != n
    ensures UnitImagePath(m, languageLowercased) != UnitImagePath(n, languageLowercased)
  {
    var sm, sn := IntToString(m), IntToString(n);
    assert sm != sn by { IntToStringInjective(m, n); }
    var tail := "_" + languageLowercased + ".jpg";
    var a, b := "images/unit_" + sm + tail, "images/unit_" + sn + tail;
    assert UnitImagePath(m, languageLowercased) == a;
    assert UnitImagePath(n, languageLowercased) == b;
    if |sm| == |sn| {
      assert a[12..12 + |sm|] == sm;
      assert b[12..12 + |sm|] == sn;
    } else {
      assert |a| != |b|;
    }
  }


  // ---------------------------------------------------------------- hexadecimal digest

  const HexDigits: string := "0123456789abcdef"

  /** `String(format: "%02x", b)`: two lowercase hexadecimal digits, high nibble first. */
  function HexByte(b: bv8): (r: string)
    ensures |r| == 2
  {
    [HexDigits[b as int / 16], HexDigits[b as int % 16]]
  }

  /** The `joined()` formatting of every digest byte. */
  function Hex(bytes: seq<bv8>): (r: string)
    ensures |r| == 2 * |bytes|
  {
    if bytes == [] then [] else HexByte(bytes[0]) + Hex(bytes[1..])
  }

  /** `sha256(_:)` once the digest is computed: `digest` is `SHA256.hash(data:)`, 32 bytes long. */
  function Sha256Hex(digest: seq<bv8>): (r: string)
    requires |digest| == 32
    ensures |r| == 64
    ensures forall i :: 0 <= i < |r| ==> r[i] in HexDigits
  {
    HexDigitsOnly(digest);
    Hex(digest)
  }

  lemma {:induction false} HexDigitsOnly(bytes: seq<bv8>)
    ensures forall i :: 0 <= i < |Hex(bytes)| ==> Hex(bytes)[i] in HexDigits
    decreases |bytes|
  {
    if bytes != [] {
      HexDigitsOnly(bytes[1..]);
      var h := Hex(bytes);
      assert h == HexByte(bytes[0]) + Hex(bytes[1..]);
      forall i | 0 <= i < |h|
        ensures h[i] in HexDigits
      {
        if i >= 2 {
          assert h[i] == Hex(bytes[1..])[i - 2];
        }
      }
    }
  }

  /** The position of a lowercase hexadecimal digit. */
  function NibbleOf(c: char): Option<nat> {
    if '0' <= c <= '9' then Some(c as int - '0' as int)
    else if 'a' <= c <= 'f' then Some(c as int - 'a' as int + 10)
    else None
  }

  /** Two lowercase hexadecimal digits, high nibble first, as one byte. */
  function UnhexPair(high: char, low: char): Option<bv8> {
    match (NibbleOf(high), NibbleOf(low))
    case (Some(hi), Some(lo)) => if hi < 16 && lo < 16 then Some((hi * 16 + lo) as bv8) else None
    case _ => None
  }

  /** The partner of `Hex`: read two digits per byte; odd lengths and other characters fail. */
  function Unhex(s: string): Option<seq<bv8>>
    decreases |s|
  {
    if s == [] then Some([])
    else if |s| == 1 then None
    else
      match (UnhexPair(s[0], s[1]), Unhex(s[2..]))
      case (Some(b), Some(rest)) => Some([b] + rest)
      case _ => None
  }

  lemma NibbleOfHexDigit(n: nat)
    requires n < 16
    ensures NibbleOf(HexDigits[n]) == Some(n)
  {
  }

  /** The two digits `HexByte` prints read back as the byte. */
  lemma UnhexPairHexByte(b: bv8)
    ensures UnhexPair(HexByte(b)[0], HexByte(b)[1]) == Some(b)
  {
    var hi, lo := b as int / 16, b as int % 16;
    NibbleOfHexDigit(hi);
    NibbleOfHexDigit(lo);
    assert (hi * 16 + lo) as bv8 == b;
  }

  /** Reading two digits of one byte in front of any text gives that byte in front of what the text reads as. */
  lemma UnhexByte(b: bv8, t: string)
    ensures Unhex(HexByte(b) + t) == if Unhex(t).Some? then Some([b] + Unhex(t).value) else None
  {
    var s := HexByte(b) + t;
    assert s[0] == HexByte(b)[0] && s[1] == HexByte(b)[1] && s[2..] == t;
    UnhexPairHexByte(b);
  }

  /** The digest string reads back as the digest: no two digests print alike. */
  lemma {:induction false} UnhexHex(bytes: seq<bv8>)
    ensures Unhex(Hex(bytes)) == Some(bytes)
    decreases |bytes|
  {
    if bytes != [] {
      UnhexByte(bytes[0], Hex(bytes[1..]));
      UnhexHex(bytes[1..]);
      assert [bytes[0]] + bytes[1..] == bytes;
    }
  }

  // ---------------------------------------------------------------- nonce

  /** The nonce alphabet as written: 64 characters; the capital letter W is not among them. */
  const NonceCharset: string := "0123456789ABCDEFGHIJKLMNOPQRSTUVXYZabcdefghijklmnopqrstuvwxyz-._"

  /** The characters the random bytes yield, in order: a byte below 64 picks its character, any other is dropped. */
  function Accepted(randoms: seq<bv8>): (r: string)
    ensures |r| <= |randoms|
  {
    if randoms == [] then []
    else
      var b := randoms[|randoms| - 1];
      Accepted(randoms[..|randoms| - 1]) + (if (b as int) < |NonceCharset| then [NonceCharset[b as int]] else [])
  }

  /** Every character of a nonce comes from the alphabet. */
  lemma {:induction false} AcceptedFromCharset(randoms: seq<bv8>)
    ensures forall i :: 0 <= i < |Accepted(randoms)| ==> Accepted(randoms)[i] in NonceCharset
  {
    if randoms != [] {
      AcceptedFromCharset(randoms[..|randoms| - 1]);
    }
  }

  function Take(s: string, n: nat): (r: string)
    ensures |r| == if |s| <= n then |s| else n
  {
    if |s| <= n then s else s[..n]
  }

  /**
   * `randomNonceString(length:)` over a supplied stream of random bytes, drawn in batches of
   * sixteen as the source draws them: the nonce is the first `length` accepted characters.
   * `None` stands for a stream that ends before enough bytes are accepted; the source keeps
   * drawing instead.
   */
  method RandomNonceString(length: int, randoms: seq<bv8>) returns (nonce: Option<string>)
    requires length > 0
    ensures nonce.Some? ==> |Accepted(randoms)| >= length && nonce.value == Accepted(randoms)[..length]
    ensures nonce.None? <==> |Accepted(randoms[..|randoms| - |randoms| % 16])| < length
  {
    var result: string := "";
    var remainingLength := length;
    var drawn := 0;
    while remainingLength > 0
      invariant 0 <= drawn <= |randoms| && drawn % 16 == 0
      invariant result == Take(Accepted(randoms[..drawn]), length)
      invariant remainingLength == length - |result| >= 0
      decreases |randoms| - drawn
    {
      if |randoms| - drawn < 16 {
        NonceStreamEnds(randoms, drawn, length, result);
        return None;
      }
      assert drawn + 16 <= |randoms|;
      result, remainingLength := AppendAccepted(randoms, drawn, length, result, remainingLength);
      drawn := drawn + 16;
    }
    NonceIsPrefix(randoms, drawn, length, result);
    nonce := Some(result);
  }

  /** Once a prefix of the stream yields `length` characters, they begin what the whole stream yields. */
  lemma NonceIsPrefix(randoms: seq<bv8>, drawn: nat, length: int, result: string)
    requires drawn <= |randoms| && drawn % 16 == 0 && length > 0
    requires result == Take(Accepted(randoms[..drawn]), length) && |result| == length
    ensures |Accepted(randoms)| >= length && result == Accepted(randoms)[..length]
    ensures |Accepted(randoms[..|randoms| - |randoms| % 16])| >= length
  {
    AcceptedPrefix(randoms, drawn);
    NoneOnlyWhenShort(randoms, drawn, length);
  }

  /**
   * `randoms.forEach` over one batch of sixteen bytes: each accepted byte is appended while
   * characters are still missing.
   */
  method AppendAccepted(randoms: seq<bv8>, drawn: nat, length: nat, result: string, remainingLength: int)
    returns (result': string, remainingLength': int)
    requires drawn + 16 <= |randoms|
    requires result == Take(Accepted(randoms[..drawn]), length)
    requires remainingLength == length - |result| >= 0
    ensures result' == Take(Accepted(randoms[..drawn + 16]), length)
    ensures remainingLength' == length - |result'| >= 0
  {
    result', remainingLength' := result, remainingLength;
    for i := drawn to drawn + 16
      invariant result' == Take(Accepted(randoms[..i]), length)
      invariant remainingLength' == length - |result'| >= 0
    {
      var random := randoms[i];
      TakeStep(randoms, i, length);
      if remainingLength' != 0 && (random as int) < |NonceCharset| {
        result' := result' + [NonceCharset[random as int]];
        remainingLength' := remainingLength' - 1;
      }
    }
  }

  /** A stream that ends within a batch, with characters still missing, has too few whole batches. */
  lemma NonceStreamEnds(randoms: seq<bv8>, drawn: nat, length: int, result: string)
    requires drawn <= |randoms| && drawn % 16 == 0 && |randoms| - drawn < 16 && length > 0
    requires result == Take(Accepted(randoms[..drawn]), length) && |result| < length
    ensures |Accepted(randoms[..|randoms| - |randoms| % 16])| < length
  {
    assert |randoms| - |randoms| % 16 == drawn;
  }

  /** One more byte: up to `length` characters, the accepted ones are taken in order. */
  lemma TakeStep(randoms: seq<bv8>, i: nat, length: nat)
    requires i < |randoms|
    ensures var before := Take(Accepted(randoms[..i]), length);
      Take(Accepted(randoms[..i + 1]), length) ==
        before + (if |before| < length && (randoms[i] as int) < |NonceCharset| then [NonceCharset[randoms[i] as int]] else [])
  {
    assert randoms[..i + 1][..i] == randoms[..i];
  }

  /** What a prefix of the stream accepts begins what the whole stream accepts. */
  lemma {:induction false} AcceptedPrefix(randoms: seq<bv8>, k: nat)
    requires k <= |randoms|
    ensures Accepted(randoms[..k]) <= Accepted(randoms)
    decreases |randoms| - k
  {
    if k < |randoms| {
      AcceptedPrefix(randoms, k + 1);
      assert randoms[..k + 1][..k] == randoms[..k];
    } else {
      assert randoms[..k] == randoms;
    }
  }

  lemma NoneOnlyWhenShort(randoms: seq<bv8>, drawn: nat, length: int)
    requires drawn <= |randoms| && drawn % 16 == 0 && length > 0
    requires |Accepted(randoms[..drawn])| >= length
    ensures |Accepted(randoms[..|randoms| - |randoms| % 16])| >= length
  {
    var whole := |randoms| - |randoms| % 16;
    assert drawn <= whole;
    assert randoms[..whole][..drawn] == randoms[..drawn];
    AcceptedPrefix(randoms[..whole], drawn);
  }
}
