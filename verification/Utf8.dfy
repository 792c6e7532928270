/**
 * UTF-8 as the guest agent converts names to text: well-formed byte sequences
 * after table 3-7 of the Unicode Standard, and the lossy conversion, which puts
 * a replacement character for every maximal broken piece.
 */
module Utf8 {
  import opened Common

  const REPLACEMENT: bytes := [0xEF, 0xBF, 0xBD]

  predicate IsTail(b: byte) {
    0x80 <= b < 0xC0
  }

  /** How many bytes a character takes that starts with `b`; none starts with a tail byte. */
  function LeadWidth(b: byte): nat {
    if b < 0x80 then 1
    else if b < 0xC2 then 0
    else if b < 0xE0 then 2
    else if b < 0xF0 then 3
    else if b < 0xF5 then 4
    else 0
  }

  /** The second byte rules out overlong forms, surrogates and numbers beyond the last character. */
  predicate IsSecond(lead: byte, b: byte) {
    if lead == 0xE0 then 0xA0 <= b < 0xC0
    else if lead == 0xED then 0x80 <= b < 0xA0
    else if lead == 0xF0 then 0x90 <= b < 0xC0
    else if lead == 0xF4 then 0x80 <= b < 0x90
    else IsTail(b)
  }

  /** The length of the longest beginning of `s` that begins some character. */
  function Begun(s: bytes): (n: nat)
    requires s != []
    ensures n <= |s| && n <= LeadWidth(s[0])
  {
    var w := LeadWidth(s[0]);
    if w <= 1 then w
    else if |s| < 2 || !IsSecond(s[0], s[1]) then 1
    else if w == 2 || |s| < 3 || !IsTail(s[2]) then 2
    else if w == 3 || |s| < 4 || !IsTail(s[3]) then 3
    else 4
  }

  /** `s` starts with a whole character. */
  predicate StartsWell(s: bytes) {
    s != [] && LeadWidth(s[0]) > 0 && Begun(s) == LeadWidth(s[0])
  }

  predicate ValidUtf8(s: bytes)
    decreases |s|
  {
    s == [] || (StartsWell(s) && ValidUtf8(s[Begun(s)..]))
  }

  /** The lossy conversion to text. */
  function Lossy(s: bytes): bytes
    decreases |s|
  {
    if s == [] then []
    else if StartsWell(s) then s[..Begun(s)] + Lossy(s[Begun(s)..])
    else REPLACEMENT + Lossy(s[if Begun(s) == 0 then 1 else Begun(s)..])
  }

  lemma BegunIsLocal(s: bytes, t: bytes)
    requires StartsWell(s)
    ensures StartsWell(s + t) && Begun(s + t) == Begun(s)
  {
  }

  lemma {:induction false} ValidConcat(s: bytes, t: bytes)
    requires ValidUtf8(s) && ValidUtf8(t)
    ensures ValidUtf8(s + t)
    decreases |s|
  {
    if s == [] {
      assert s + t == t;
    } else {
      BegunIsLocal(s, t);
      ValidConcat(s[Begun(s)..], t);
      assert (s + t)[Begun(s)..] == s[Begun(s)..] + t;
    }
  }

  lemma TailsInside(s: bytes, i: nat)
    requires StartsWell(s) && 0 < i < Begun(s)
    ensures s[i] >= 0x80
  {
  }

  lemma BegunOfPrefix(s: bytes, n: nat)
    requires StartsWell(s) && Begun(s) <= n <= |s|
    ensures StartsWell(s[..n]) && Begun(s[..n]) == Begun(s)
  {
  }

  /** Cutting a text at an ASCII character leaves two texts. */
  lemma {:induction false} ValidSplit(s: bytes, i: nat)
    requires ValidUtf8(s) && i < |s| && s[i] < 0x80
    ensures ValidUtf8(s[..i]) && ValidUtf8(s[i + 1..])
    decreases |s|
  {
    var n := Begun(s);
    if i == 0 {
      assert s[..0] == [] && s[n..] == s[i + 1..];
    } else {
      if i < n {
        TailsInside(s, i);
      }
      ValidSplit(s[n..], i - n);
      BegunOfPrefix(s, i);
      assert s[..i][n..] == s[n..][..i - n];
      assert s[n..][i - n + 1..] == s[i + 1..];
    }
  }

  lemma {:induction false} AsciiIsValid(s: bytes)
    requires forall i :: 0 <= i < |s| ==> s[i] < 0x80
    ensures ValidUtf8(s)
  {
    if s != [] {
      AsciiIsValid(s[1..]);
    }
  }

  lemma {:induction false} LossyKeepsValid(s: bytes)
    requires ValidUtf8(s)
    ensures Lossy(s) == s
    decreases |s|
  {
    if s != [] {
      LossyKeepsValid(s[Begun(s)..]);
      assert s == s[..Begun(s)] + s[Begun(s)..];
    }
  }

  lemma {:induction false} LossyIsValid(s: bytes)
    ensures ValidUtf8(Lossy(s))
    decreases |s|
  {
    if s == [] {
    } else if StartsWell(s) {
      var n := Begun(s);
      LossyIsValid(s[n..]);
      BegunOfPrefix(s, n);
      assert s[..n][n..] == [];
      ValidConcat(s[..n], Lossy(s[n..]));
    } else {
      var rest := s[if Begun(s) == 0 then 1 else Begun(s)..];
      LossyIsValid(rest);
      assert StartsWell(REPLACEMENT) && Begun(REPLACEMENT) == 3 && REPLACEMENT[3..] == [];
      ValidConcat(REPLACEMENT, Lossy(rest));
    }
  }

  /** The conversion changes exactly the bytes that are no text. */
  lemma LossyIsIdentityIffValid(s: bytes)
    ensures Lossy(s) == s <==> ValidUtf8(s)
  {
    LossyIsValid(s);
    if ValidUtf8(s) {
      LossyKeepsValid(s);
    }
  }

  lemma {:induction false} LossyAddsNoNul(s: bytes)
    requires 0 !in s
    ensures 0 !in Lossy(s)
    decreases |s|
  {
    if s != [] {
      var n := if StartsWell(s) || Begun(s) > 0 then Begun(s) else 1;
      assert 0 !in s[n..] && 0 !in s[..n];
      LossyAddsNoNul(s[n..]);
    }
  }

  // ---------------------------------------------------------------- characters and their encodings

  /** The numbers of Unicode characters: up to 10FFFF, without the surrogates. */
  predicate IsScalar(n: nat) {
    n < 0xD800 || 0xE000 <= n < 0x11_0000
  }

  /** The UTF-8 encoding of a character: its bits in groups of six behind a leading byte. */
  function EncodeScalar(n: nat): bytes
    requires IsScalar(n)
  {
    if n < 0x80 then [n]
    else if n < 0x800 then [0xC0 + n / 64, 0x80 + n % 64]
    else if n < 0x1_0000 then [0xE0 + n / 4096, 0x80 + n / 64 % 64, 0x80 + n % 64]
    else [0xF0 + n / 26_2144, 0x80 + n / 4096 % 64, 0x80 + n / 64 % 64, 0x80 + n % 64]
  }

  lemma EncodedStartsWell(n: nat)
    requires IsScalar(n)
    ensures StartsWell(EncodeScalar(n)) && Begun(EncodeScalar(n)) == |EncodeScalar(n)|
  {
    if 0x800 <= n < 0x1_0000 {
      assert n / 4096 == 0 ==> n / 64 % 64 >= 32;
      assert n / 4096 == 13 ==> n / 64 % 64 < 32;
    } else if n >= 0x1_0000 {
      assert n / 26_2144 == 0 ==> n / 4096 % 64 >= 16;
      assert n / 26_2144 == 4 ==> n / 4096 % 64 < 16;
    }
  }

  /** The character at the start of `s`. */
  function Decoded(s: bytes): nat
    requires StartsWell(s)
  {
    var b: seq<int> := s;
    match Begun(s)
    case 1 => b[0]
    case 2 => (b[0] - 0xC0) * 64 + (b[1] - 0x80)
    case 3 => (b[0] - 0xE0) * 4096 + (b[1] - 0x80) * 64 + (b[2] - 0x80)
    case _ => (b[0] - 0xF0) * 26_2144 + (b[1] - 0x80) * 4096 + (b[2] - 0x80) * 64 + (b[3] - 0x80)
  }

  lemma Groups(a: nat, b: nat, c: nat, d: nat)
    requires b < 64 && c < 64 && d < 64
    ensures (a * 64 + b) / 64 == a && (a * 64 + b) % 64 == b
    ensures var n := a * 4096 + b * 64 + c; n / 4096 == a && n / 64 % 64 == b && n % 64 == c
    ensures var n := a * 26_2144 + b * 4096 + c * 64 + d;
      n / 26_2144 == a && n / 4096 % 64 == b && n / 64 % 64 == c && n % 64 == d
  {
  }

  lemma TwoBytes(a: int, b: int)
    requires 0xC2 <= a < 0xE0 && 0x80 <= b < 0xC0
    ensures var n := (a - 0xC0) * 64 + (b - 0x80); 0x80 <= n < 0x800 && EncodeScalar(n) == [a, b]
  {
    Groups(a - 0xC0, b - 0x80, 0, 0);
  }

  lemma ThreeBytes(a: byte, b: byte, c: byte)
    requires 0xE0 <= a < 0xF0 && IsSecond(a, b) && IsTail(c)
    ensures var n: int := (a - 0xE0) * 4096 + (b - 0x80) * 64 + (c - 0x80);
      0x800 <= n && IsScalar(n) && n < 0x1_0000 && EncodeScalar(n) == [a, b, c]
  {
    Groups(a - 0xE0, b - 0x80, c - 0x80, 0);
  }

  lemma FourBytes(a: byte, b: byte, c: byte, d: byte)
    requires 0xF0 <= a < 0xF5 && IsSecond(a, b) && IsTail(c) && IsTail(d)
    ensures var n: int := (a - 0xF0) * 26_2144 + (b - 0x80) * 4096 + (c - 0x80) * 64 + (d - 0x80);
      0x1_0000 <= n < 0x11_0000 && EncodeScalar(n) == [a, b, c, d]
  {
    Groups(a - 0xF0, b - 0x80, c - 0x80, d - 0x80);
  }

  lemma StartIsEncoded(s: bytes)
    requires StartsWell(s)
    ensures IsScalar(Decoded(s)) && EncodeScalar(Decoded(s)) == s[..Begun(s)]
  {
    hide EncodeScalar;
    match Begun(s)
    case 1 => assert EncodeScalar(s[0]) == [s[0]] by { OneByte(s[0]); }
    case 2 => TwoBytes(s[0], s[1]);
    case 3 => ThreeBytes(s[0], s[1], s[2]);
    case _ => FourBytes(s[0], s[1], s[2], s[3]);
  }

  lemma OneByte(a: byte)
    requires a < 0x80
    ensures EncodeScalar(a) == [a]
  {
  }

  /** A byte string starts well exactly when it starts with the encoding of a character. */
  lemma StartsWithCharacter(s: bytes)
    ensures StartsWell(s) <==> exists n: nat :: IsScalar(n) && EncodeScalar(n) <= s
  {
    if StartsWell(s) {
      StartIsEncoded(s);
    }
    if n: nat :| IsScalar(n) && EncodeScalar(n) <= s {
      EncodedStartsWell(n);
      var e := EncodeScalar(n);
      BegunIsLocal(e, s[|e|..]);
      assert s == e + s[|e|..];
    }
  }

  function EncodeText(text: seq<nat>): bytes
    requires forall i :: 0 <= i < |text| ==> IsScalar(text[i])
  {
    if text == [] then [] else EncodeScalar(text[0]) + EncodeText(text[1..])
  }

  lemma {:induction false} EncodedIsValid(text: seq<nat>)
    requires forall i :: 0 <= i < |text| ==> IsScalar(text[i])
    ensures ValidUtf8(EncodeText(text))
  {
    if text == [] {
    } else {
      var e := EncodeScalar(text[0]);
      EncodedIsValid(text[1..]);
      EncodedStartsWell(text[0]);
      assert e[|e|..] == [];
      assert ValidUtf8(e);
      ValidConcat(e, EncodeText(text[1..]));
    }
  }

  lemma {:induction false} ValidIsEncoded(s: bytes) returns (text: seq<nat>)
    requires ValidUtf8(s)
    ensures (forall i :: 0 <= i < |text| ==> IsScalar(text[i])) && EncodeText(text) == s
    decreases |s|
  {
    text := [];
    if s != [] {
      StartIsEncoded(s);
      var rest := ValidIsEncoded(s[Begun(s)..]);
      text := [Decoded(s)] + rest;
      assert text[1..] == rest;
      assert s == s[..Begun(s)] + s[Begun(s)..];
    }
  }

  /** A byte string is well formed exactly when it encodes some text. */
  lemma ValidIffEncodesText(s: bytes)
    ensures ValidUtf8(s) <==>
      exists text: seq<nat> :: (forall i :: 0 <= i < |text| ==> IsScalar(text[i])) && EncodeText(text) == s
  {
    if ValidUtf8(s) {
      var text := ValidIsEncoded(s);
    }
    if text: seq<nat> :| (forall i :: 0 <= i < |text| ==> IsScalar(text[i])) && EncodeText(text) == s {
      EncodedIsValid(text);
    }
  }
}
