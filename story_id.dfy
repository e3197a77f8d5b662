/**
 * Story identifiers: the base-36 digits of the creation time in milliseconds,
 * a hyphen, and the lower-case hexadecimal of eight random bytes.  The
 * validator accepts `^[a-z0-9]+-[a-f0-9]{16}$`.
 */
module StoryId {
  import JsNumber

  type Byte = b: int | 0 <= b < 256

  predicate IsLowerAlnum(c: char) {
    'a' <= c <= 'z' || '0' <= c <= '9'
  }

  predicate IsLowerHex(c: char) {
    'a' <= c <= 'f' || '0' <= c <= '9'
  }

  /**
   * The pattern read literally: some split of `s` into a non-empty run of
   * `[a-z0-9]`, a hyphen, and exactly sixteen `[a-f0-9]`.
   */
  ghost predicate MatchesPattern(s: string) {
    exists i :: 0 < i < |s| && s[i] == '-'
      && (forall k :: 0 <= k < i ==> IsLowerAlnum(s[k]))
      && |s| - (i + 1) == 16
      && (forall k :: i + 1 <= k < |s| ==> IsLowerHex(s[k]))
  }

  /** `validateStoryId`: the hyphen can only stand seventeen characters from the end. */
  predicate ValidateStoryId(s: string) {
    |s| >= 18 && s[|s| - 17] == '-'
    && (forall k :: 0 <= k < |s| - 17 ==> IsLowerAlnum(s[k]))
    && (forall k :: |s| - 16 <= k < |s| ==> IsLowerHex(s[k]))
  }

  /** The validator decides exactly the pattern. */
  lemma ValidateMatchesPattern(s: string)
    ensures ValidateStoryId(s) <==> MatchesPattern(s)
  {
    if MatchesPattern(s) {
      var i :| 0 < i < |s| && s[i] == '-'
        && (forall k :: 0 <= k < i ==> IsLowerAlnum(s[k]))
        && |s| - (i + 1) == 16
        && (forall k :: i + 1 <= k < |s| ==> IsLowerHex(s[k]));
      assert i == |s| - 17;
    }
    if ValidateStoryId(s) {
      assert 0 < |s| - 17 < |s|;
    }
  }

  /** `Buffer.toString('hex')` of one byte: two lower-case hexadecimal digits. */
  function HexByte(b: Byte): string {
    [JsNumber.DigitChar(b / 16), JsNumber.DigitChar(b % 16)]
  }

  /** `Buffer.toString('hex')`. */
  function Hex(bytes: seq<Byte>): (s: string)
    ensures |s| == 2 * |bytes|
    ensures forall k :: 0 <= k < |s| ==> IsLowerHex(s[k])
  {
    if bytes == [] then [] else HexByte(bytes[0]) + Hex(bytes[1..])
  }

  /** Reading hexadecimal text back into bytes, two digits at a time. */
  function HexDecode(s: string): seq<int>
    requires |s| % 2 == 0
    requires forall k :: 0 <= k < |s| ==> IsLowerHex(s[k])
  {
    if s == [] then []
    else
      HexDigit(s[0]);
      HexDigit(s[1]);
      [JsNumber.DigitValue(s[0]).value * 16 + JsNumber.DigitValue(s[1]).value] + HexDecode(s[2..])
  }

  lemma HexDigit(c: char)
    requires IsLowerHex(c)
    ensures JsNumber.IsDigit(c, 16)
  {
  }

  /** Hex encoding loses nothing: decoding gives the bytes back. */
  lemma {:induction false} HexRoundTrip(bytes: seq<Byte>)
    ensures HexDecode(Hex(bytes)) == bytes
  {
    if bytes != [] {
      var s := Hex(bytes);
      assert s[2..] == Hex(bytes[1..]);
      HexRoundTrip(bytes[1..]);
    }
  }

  /**
   * `generateStoryId`, with the clock reading `now` (milliseconds since the
   * epoch) and the eight random bytes passed in.
   */
  function GenerateStoryId(now: nat, random: seq<Byte>): string
    requires |random| == 8
  {
    JsNumber.ToRadix(now, 36) + "-" + Hex(random)
  }

  /** Every generated id passes the validator and is longer than ten characters. */
  lemma GeneratedIdIsValid(now: nat, random: seq<Byte>)
    requires |random| == 8
    ensures ValidateStoryId(GenerateStoryId(now, random))
    ensures |GenerateStoryId(now, random)| > 10
  {
    var p := JsNumber.ToRadix(now, 36);
    var h := Hex(random);
    var s := GenerateStoryId(now, random);
    assert |s| - 17 == |p|;
    forall k | 0 <= k < |p| ensures IsLowerAlnum(s[k]) {
      assert s[k] == p[k];
    }
    forall k | |s| - 16 <= k < |s| ensures IsLowerHex(s[k]) {
      assert s[k] == h[k - |p| - 1];
    }
  }

  /**
   * The id gives back both the time and the random bytes it was made of, so
   * two ids are equal only if both inputs were.
   */
  lemma GeneratedIdDecodes(now: nat, random: seq<Byte>)
    requires |random| == 8
    ensures var s := GenerateStoryId(now, random);
      && (forall k :: 0 <= k < |s| - 17 ==> JsNumber.IsDigit(s[k], 36))
      && JsNumber.DigitsValue(s[..|s| - 17], 36) == now
      && HexDecode(s[|s| - 16..]) == random
  {
    var p := JsNumber.ToRadix(now, 36);
    var s := GenerateStoryId(now, random);
    assert s[..|s| - 17] == p;
    assert s[|s| - 16..] == Hex(random);
    JsNumber.ToRadixRoundTrip(now, 36);
    HexRoundTrip(random);
  }

  /** Distinct clock readings or random bytes give distinct ids. */
  lemma GenerateInjective(now1: nat, r1: seq<Byte>, now2: nat, r2: seq<Byte>)
    requires |r1| == 8 && |r2| == 8
    requires GenerateStoryId(now1, r1) == GenerateStoryId(now2, r2)
    ensures now1 == now2 && r1 == r2
  {
    GeneratedIdDecodes(now1, r1);
    GeneratedIdDecodes(now2, r2);
  }

  /** The accepted and rejected examples of the source's test suite. */
  lemma ValidatorExamples()
    ensures ValidateStoryId("abc123-1234567890abcdef")
    ensures !ValidateStoryId("invalid")
    ensures !ValidateStoryId("abc-123")
    ensures !ValidateStoryId("123-abc")
    ensures !ValidateStoryId("")
    ensures !ValidateStoryId("abc123-invalid")
  {
  }
}
