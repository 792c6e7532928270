/**
 * The fields of a ustar header as the guest agent writes and reads them
 * (guest-agent/src/files.rs): NUL-padded strings and octal numbers, after the
 * "ustar Interchange Format" of the pax utility in IEEE Std 1003.1.
 */
module UstarFields {
  import opened Common
  import opened Utf8

  const SLASH: byte := 47
  const DOT: byte := 46
  const BACKSLASH: byte := 92
  const SPACE: byte := 32
  const PLUS: byte := 43
  const DIGIT_0: byte := 48

  function Zeros(n: nat): bytes {
    Repeat<byte>(n, 0)
  }

  function Pow8(n: nat): nat {
    if n == 0 then 1 else 8 * Pow8(n - 1)
  }

  // ---------------------------------------------------------------- writing

  /** The octal digits of `v`, padded with zeros to at least `width`. */
  function OctalDigits(v: nat, width: nat): bytes
    decreases v, width
  {
    if width == 0 && v == 0 then []
    else OctalDigits(v / 8, if width == 0 then 0 else width - 1) + [DIGIT_0 + v % 8]
  }

  /** `value` copied to the front of a zeroed field of `width` bytes, and cut off at its end. */
  function FieldOf(value: bytes, width: nat): bytes {
    if |value| >= width then value[..width] else value + Zeros(width - |value|)
  }

  function WriteOctal(v: nat, width: nat): bytes
    requires width > 0
  {
    FieldOf(OctalDigits(v, width - 1) + [0], width)
  }

  // ---------------------------------------------------------------- reading

  /** The bytes before the first NUL. */
  function BeforeNul(field: bytes): bytes {
    if field == [] || field[0] == 0 then [] else [field[0]] + BeforeNul(field[1..])
  }

  /** The text before the first NUL. */
  function ParseStringField(field: bytes): bytes {
    Lossy(BeforeNul(field))
  }

  predicate IsSpace(b: byte) {
    b == 32 || 9 <= b <= 13
  }

  function TrimStart(s: bytes): bytes {
    if s != [] && IsSpace(s[0]) then TrimStart(s[1..]) else s
  }

  function TrimEnd(s: bytes): bytes {
    if s != [] && IsSpace(s[|s| - 1]) then TrimEnd(s[..|s| - 1]) else s
  }

  predicate AllOctal(s: bytes) {
    forall i :: 0 <= i < |s| ==> DIGIT_0 <= s[i] < DIGIT_0 + 8
  }

  function OctalValue(s: bytes): nat
    requires AllOctal(s)
  {
    if s == [] then 0 else 8 * OctalValue(s[..|s| - 1]) + (s[|s| - 1] - DIGIT_0)
  }

  /** An unsigned 64-bit number in base 8: an optional plus sign and at least one digit. */
  function ParseRadix8(text: bytes): Option<nat> {
    var digits := if |text| > 1 && text[0] == PLUS then text[1..] else text;
    if digits == [] || !AllOctal(digits) || OctalValue(digits) >= U64_LIMIT then None
    else Some(OctalValue(digits))
  }

  function ParseOctal(field: bytes): Option<nat> {
    var text := TrimEnd(TrimStart(ParseStringField(field)));
    if text == [] then Some(0) else ParseRadix8(text)
  }

  // ---------------------------------------------------------------- round trips

  lemma {:induction false} FieldBeforeNul(value: bytes, width: nat)
    requires 0 !in value && |value| <= width
    ensures |FieldOf(value, width)| == width && BeforeNul(FieldOf(value, width)) == value
  {
    if value == [] {
      assert width > 0 ==> FieldOf(value, width)[0] == 0;
    } else {
      FieldBeforeNul(value[1..], width - 1);
      assert FieldOf(value, width)[1..] == FieldOf(value[1..], width - 1);
      assert FieldOf(value, width)[0] == value[0];
      assert value == [value[0]] + value[1..];
    }
  }

  /** A value that fits its field and has no NUL is read back exactly when it is valid UTF-8. */
  lemma StringFieldRoundTrip(value: bytes, width: nat)
    requires 0 !in value && |value| <= width
    ensures |FieldOf(value, width)| == width
    ensures ParseStringField(FieldOf(value, width)) == value <==> ValidUtf8(value)
  {
    FieldBeforeNul(value, width);
    LossyIsIdentityIffValid(value);
  }

  lemma {:induction false} OctalDigitsFacts(v: nat, width: nat)
    ensures AllOctal(OctalDigits(v, width)) && OctalValue(OctalDigits(v, width)) == v
    ensures |OctalDigits(v, width)| >= width
    decreases v, width
  {
    if width == 0 && v == 0 {
    } else {
      var rest := OctalDigits(v / 8, if width == 0 then 0 else width - 1);
      OctalDigitsFacts(v / 8, if width == 0 then 0 else width - 1);
      assert OctalDigits(v, width)[..|rest|] == rest;
    }
  }

  lemma {:induction false} OctalDigitsLength(v: nat, width: nat, n: nat)
    requires width <= n
    ensures |OctalDigits(v, width)| <= n <==> v < Pow8(n)
    decreases v, width
  {
    if width == 0 && v == 0 {
      Pow8Positive(n);
    } else if n == 0 {
      OctalDigitsFacts(v, width);
    } else {
      OctalDigitsLength(v / 8, if width == 0 then 0 else width - 1, n - 1);
    }
  }

  lemma {:induction false} Pow8Positive(n: nat)
    ensures Pow8(n) > 0
  {
    if n > 0 {
      Pow8Positive(n - 1);
    }
  }

  lemma {:induction false} OctalPrefix(s: bytes, m: nat)
    requires AllOctal(s) && m <= |s|
    ensures AllOctal(s[..m]) && OctalValue(s[..m]) <= OctalValue(s)
    ensures m < |s| && OctalValue(s) > 0 ==> OctalValue(s[..m]) < OctalValue(s)
  {
    if m < |s| {
      OctalPrefix(s[..|s| - 1], m);
      assert s[..|s| - 1][..m] == s[..m];
    } else {
      assert s[..m] == s;
    }
  }

  lemma ParseDigits(digits: bytes)
    requires digits != [] && AllOctal(digits) && OctalValue(digits) < U64_LIMIT
    ensures ParseOctal(digits) == Some(OctalValue(digits))
    ensures ParseOctal(digits + [0]) == Some(OctalValue(digits))
  {
    AsciiIsValid(digits);
    StringFieldRoundTrip(digits, |digits|);
    StringFieldRoundTrip(digits, |digits| + 1);
    assert FieldOf(digits, |digits|) == digits;
    assert FieldOf(digits, |digits| + 1) == digits + [0];
  }

  /**
   * A number written into an octal field is read back exactly when it is below
   * eight to the width of the field; a longer one loses its low digits.
   */
  lemma OctalRoundTrip(v: nat, width: nat)
    requires width >= 2 && v < U64_LIMIT
    ensures |WriteOctal(v, width)| == width
    ensures ParseOctal(WriteOctal(v, width)) == Some(v) <==> v < Pow8(width)
  {
    hide ParseOctal;
    var digits := OctalDigits(v, width - 1);
    OctalDigitsFacts(v, width - 1);
    OctalDigitsLength(v, width - 1, width - 1);
    OctalDigitsLength(v, width - 1, width);
    if |digits| < width {
      assert WriteOctal(v, width) == digits + [0];
      ParseDigits(digits);
    } else {
      var kept := digits[..width];
      assert WriteOctal(v, width) == kept;
      OctalPrefix(digits, width);
      ParseDigits(kept);
      Pow8Positive(width);
      if |digits| == width {
        assert kept == digits;
      }
    }
  }

  lemma {:induction false} BlanksTrimmed(n: nat, s: bytes)
    requires s != [] && !IsSpace(s[0]) && !IsSpace(s[|s| - 1])
    ensures TrimStart(Repeat(n, SPACE) + s) == s && TrimEnd(s + Repeat(n, SPACE)) == s
  {
    if n == 0 {
      assert Repeat(n, SPACE) + s == s && s + Repeat(n, SPACE) == s;
    } else {
      BlanksTrimmed(n - 1, s);
      var front, back := Repeat(n, SPACE) + s, s + Repeat(n, SPACE);
      assert Repeat(n, SPACE)[1..] == Repeat(n - 1, SPACE);
      assert front[1..] == Repeat(n - 1, SPACE) + s;
      assert back[..|back| - 1] == s + Repeat(n - 1, SPACE);
    }
  }

  /** Numbers of other archivers, with blanks around them and anything behind a NUL, are read too. */
  lemma BlankPaddedOctal(digits: bytes, before: nat, after: nat, tail: bytes)
    requires digits != [] && AllOctal(digits) && OctalValue(digits) < U64_LIMIT
    ensures ParseOctal(Repeat(before, SPACE) + digits + Repeat(after, SPACE) + [0] + tail) == Some(OctalValue(digits))
  {
    var text := Repeat(before, SPACE) + digits + Repeat(after, SPACE);
    assert forall i :: 0 <= i < |text| ==> 0 < text[i] < 0x80;
    NulEnds(text, tail);
    AsciiIsValid(text);
    LossyKeepsValid(text);
    hide Lossy;
    assert digits[0] != PLUS && !IsSpace(digits[0]) && !IsSpace(digits[|digits| - 1]);
    BlanksTrimmed(before, digits);
    BlanksTrimmed(after, digits);
    TrimStartKeepsTail(before, digits, Repeat(after, SPACE));
  }

  lemma {:induction false} NulEnds(s: bytes, tail: bytes)
    requires 0 !in s
    ensures BeforeNul(s + [0] + tail) == s
  {
    if s == [] {
      assert s + [0] + tail == [0] + tail;
    } else {
      NulEnds(s[1..], tail);
      assert (s + [0] + tail)[1..] == s[1..] + [0] + tail;
      assert s == [s[0]] + s[1..];
    }
  }

  lemma {:induction false} TrimStartKeepsTail(n: nat, s: bytes, tail: bytes)
    requires s != [] && !IsSpace(s[0])
    ensures TrimStart(Repeat(n, SPACE) + s + tail) == s + tail
  {
    if n == 0 {
      assert Repeat(n, SPACE) + s + tail == s + tail;
    } else {
      TrimStartKeepsTail(n - 1, s, tail);
      var all := Repeat(n, SPACE) + s + tail;
      assert Repeat(n, SPACE)[1..] == Repeat(n - 1, SPACE);
      assert all[1..] == Repeat(n - 1, SPACE) + s + tail;
    }
  }
}
