/**
 * The 512-byte ustar header (guest-agent/src/files.rs): the layout written by
 * `append_tar_header`, its checksum, and the fields read back on extraction.
 */
module UstarHeader {
  import opened Common
  import opened UstarFields
  import opened UstarPath

  const BLOCK := 512

  const USTAR_MAGIC: bytes := [117, 115, 116, 97, 114, 0, 48, 48]

  const TYPE_FILE: byte := 48
  const TYPE_DIR: byte := 53

  /** The bytes in front of the checksum field. */
  function FrontPart(name: bytes, mode: nat, size: nat): bytes {
    FieldOf(name, NAME_WIDTH) + WriteOctal(mode, 8) + WriteOctal(0, 8) + WriteOctal(0, 8)
    + WriteOctal(size, 12) + WriteOctal(0, 12)
  }

  /** The bytes behind the checksum field. */
  function BackPart(typeflag: byte, prefix: bytes): bytes {
    [typeflag] + Zeros(100) + USTAR_MAGIC + Zeros(80) + FieldOf(prefix, PREFIX_WIDTH) + Zeros(12)
  }

  function Sum(s: bytes): nat {
    if s == [] then 0 else Sum(s[..|s| - 1]) + s[|s| - 1]
  }

  /** The checksum of a header: the sum of its bytes, with blanks in place of the checksum. */
  function Checksum(front: bytes, back: bytes): nat {
    Sum(front + Repeat(8, SPACE) + back)
  }

  /** Six octal digits, a NUL and a blank. */
  function ChecksumField(sum: nat): bytes {
    FieldOf(OctalDigits(sum, 6) + [0, SPACE], 8)
  }

  function Header(name: bytes, prefix: bytes, mode: nat, size: nat, typeflag: byte): bytes {
    var front, back := FrontPart(name, mode, size), BackPart(typeflag, prefix);
    front + ChecksumField(Checksum(front, back)) + back
  }

  // ---------------------------------------------------------------- layout

  lemma FieldWidth(value: bytes, width: nat)
    ensures |FieldOf(value, width)| == width
  {
  }

  lemma OctalWidth(v: nat, width: nat)
    requires width > 0
    ensures |WriteOctal(v, width)| == width
  {
    FieldWidth(OctalDigits(v, width - 1) + [0], width);
  }

  lemma FrontLayout(name: bytes, mode: nat, size: nat)
    ensures var f := FrontPart(name, mode, size);
      && |f| == 148
      && f[0..100] == FieldOf(name, NAME_WIDTH)
      && f[100..108] == WriteOctal(mode, 8)
      && f[108..116] == WriteOctal(0, 8) && f[116..124] == WriteOctal(0, 8)
      && f[124..136] == WriteOctal(size, 12)
      && f[136..148] == WriteOctal(0, 12)
  {
    hide FieldOf;
    hide WriteOctal;
    FieldWidth(name, NAME_WIDTH);
    OctalWidth(mode, 8);
    OctalWidth(0, 8);
    OctalWidth(size, 12);
    OctalWidth(0, 12);
    SixParts(FieldOf(name, NAME_WIDTH), WriteOctal(mode, 8), WriteOctal(0, 8), WriteOctal(0, 8),
             WriteOctal(size, 12), WriteOctal(0, 12));
  }

  lemma SixParts(a: bytes, b: bytes, c: bytes, d: bytes, e: bytes, f: bytes)
    requires |a| == 100 && |b| == |c| == |d| == 8 && |e| == |f| == 12
    ensures var s := a + b + c + d + e + f;
      && |s| == 148 && s[0..100] == a && s[100..108] == b && s[108..116] == c && s[116..124] == d
      && s[124..136] == e && s[136..148] == f
  {
  }

  lemma BackLayout(typeflag: byte, prefix: bytes)
    ensures var b := BackPart(typeflag, prefix);
      && |b| == 356
      && b[0] == typeflag
      && b[1..101] == Zeros(100) && b[101..109] == USTAR_MAGIC && b[109..189] == Zeros(80)
      && b[189..344] == FieldOf(prefix, PREFIX_WIDTH)
      && b[344..] == Zeros(12)
  {
    hide FieldOf;
    FieldWidth(prefix, PREFIX_WIDTH);
  }

  /**
   * Every field at its place: name, mode, zero owner and group, size, zero time,
   * checksum, type, no link name, magic and version, no owner names or device
   * numbers, prefix, and zeros to the end of the block.
   */
  lemma HeaderLayout(name: bytes, prefix: bytes, mode: nat, size: nat, typeflag: byte)
    ensures var h := Header(name, prefix, mode, size, typeflag);
      && |h| == BLOCK
      && h[0..100] == FieldOf(name, NAME_WIDTH)
      && h[100..108] == WriteOctal(mode, 8)
      && h[108..116] == WriteOctal(0, 8) && h[116..124] == WriteOctal(0, 8)
      && h[124..136] == WriteOctal(size, 12)
      && h[136..148] == WriteOctal(0, 12)
      && h[148..156] == ChecksumField(Sum(h[..148] + Repeat(8, SPACE) + h[156..]))
      && h[156] == typeflag
      && h[157..257] == Zeros(100) && h[257..265] == USTAR_MAGIC && h[265..345] == Zeros(80)
      && h[345..500] == FieldOf(prefix, PREFIX_WIDTH)
      && h[500..] == Zeros(12)
  {
    var front, back := FrontPart(name, mode, size), BackPart(typeflag, prefix);
    var c := ChecksumField(Checksum(front, back));
    FrontLayout(name, mode, size);
    BackLayout(typeflag, prefix);
    FieldWidth(OctalDigits(Checksum(front, back), 6) + [0, SPACE], 8);
    Layout3(front, c, back);
    Layout3Slices(front, c, back);
  }

  lemma Layout3Slices(front: bytes, c: bytes, back: bytes)
    requires |front| == 148 && |c| == 8 && |back| == 356
    ensures var h := front + c + back;
      && h[..148] == front && h[156..] == back
      && h[108..116] == front[108..116] && h[116..124] == front[116..124] && h[136..148] == front[136..148]
      && h[157..257] == back[1..101] && h[257..265] == back[101..109] && h[265..345] == back[109..189]
      && h[500..] == back[344..]
  {
  }

  lemma Layout3(front: bytes, c: bytes, back: bytes)
    requires |front| == 148 && |c| == 8 && |back| == 356
    ensures var h := front + c + back;
      && |h| == BLOCK
      && h[0..100] == front[0..100] && h[100..108] == front[100..108] && h[124..136] == front[124..136]
      && h[148..156] == c
      && h[156] == back[0] && h[345..500] == back[189..344]
  {
  }

  // ---------------------------------------------------------------- checksum

  lemma {:induction false} SumBound(s: bytes)
    ensures Sum(s) <= 255 * |s|
  {
    if s != [] {
      SumBound(s[..|s| - 1]);
    }
  }

  /**
   * The checksum of every header fits its six digits, and the stored field reads
   * back as the sum of the header with blanks in place of that field.
   */
  lemma ChecksumStored(name: bytes, prefix: bytes, mode: nat, size: nat, typeflag: byte)
    ensures var h := Header(name, prefix, mode, size, typeflag);
      && |h| == BLOCK
      && Sum(h[..148] + Repeat(8, SPACE) + h[156..]) < Pow8(6)
      && ParseOctal(h[148..156]) == Some(Sum(h[..148] + Repeat(8, SPACE) + h[156..]))
  {
    var front, back := FrontPart(name, mode, size), BackPart(typeflag, prefix);
    var h := Header(name, prefix, mode, size, typeflag);
    FrontLayout(name, mode, size);
    BackLayout(typeflag, prefix);
    var sum := Checksum(front, back);
    SumBound(front + Repeat(8, SPACE) + back);
    assert Pow8(6) == 262144 by { assert Pow8(3) == 512; }
    ChecksumText(sum);
    Layout3(front, ChecksumField(sum), back);
    assert h[..148] == front && h[156..] == back;
  }

  lemma ChecksumText(sum: nat)
    requires sum < Pow8(6) && sum < U64_LIMIT
    ensures |ChecksumField(sum)| == 8 && ParseOctal(ChecksumField(sum)) == Some(sum)
  {
    var digits := OctalDigits(sum, 6);
    OctalDigitsFacts(sum, 6);
    OctalDigitsLength(sum, 6, 6);
    assert ChecksumField(sum) == digits + [0, SPACE];
    ParseDigits(digits);
    CutAtNul(digits, [SPACE]);
    assert digits + [0, SPACE] == digits + [0] + [SPACE];
  }

  lemma {:induction false} CutAtNul(s: bytes, tail: bytes)
    requires 0 !in s
    ensures BeforeNul(s + [0] + tail) == s && BeforeNul(s + [0]) == s
  {
    if s != [] {
      CutAtNul(s[1..], tail);
      assert (s + [0] + tail)[1..] == s[1..] + [0] + tail && (s + [0])[1..] == s[1..] + [0];
      assert s == [s[0]] + s[1..];
    } else {
      assert s + [0] + tail == [0] + tail && s + [0] == [0];
    }
  }

  // ---------------------------------------------------------------- filling the buffer in place

  /** `value` written over `s` from `lo`, cut off at `hi`. */
  function Overlay(s: bytes, lo: nat, hi: nat, value: bytes): bytes
    requires lo <= hi <= |s|
  {
    var n := if |value| < hi - lo then |value| else hi - lo;
    s[..lo] + value[..n] + s[lo + n..]
  }

  method WriteBytes(target: array<byte>, lo: nat, hi: nat, value: bytes)
    requires lo <= hi <= target.Length
    modifies target
    ensures target[..] == Overlay(old(target[..]), lo, hi, value)
  {
    var n := if |value| < hi - lo then |value| else hi - lo;
    for i := 0 to n
      invariant target[..] == Overlay(old(target[..]), lo, lo + i, value)
    {
      target[lo + i] := value[i];
    }
  }

  lemma OverlayZeros(done: bytes, width: nat, left: nat, value: bytes)
    requires width <= left
    ensures Overlay(done + Zeros(left), |done|, |done| + width, value)
        == done + FieldOf(value, width) + Zeros(left - width)
  {
    FieldWidth(value, width);
  }

  lemma SkipZeros(done: bytes, width: nat, left: nat)
    requires width <= left
    ensures done + Zeros(left) == done + Zeros(width) + Zeros(left - width)
  {
  }

  lemma OverlayMiddle(front: bytes, blanks: bytes, back: bytes, text: bytes)
    requires |text| >= |blanks|
    ensures Overlay(front + blanks + back, |front|, |front| + |blanks|, text) == front + FieldOf(text, |blanks|) + back
  {
  }

  /** Appends the filled header, or refuses a path that does not fit. */
  method AppendTarHeader(out: bytes, path: bytes, mode: nat, size: nat, typeflag: byte)
      returns (r: Result<bytes, string>)
    ensures r.Err? <==> SplitTarPath(path).Err?
    ensures r.Ok? ==> var (name, prefix) := SplitTarPath(path).value;
      r.value == out + Header(name, prefix, mode, size, typeflag)
  {
    var split := SplitTarPath(path);
    if split.Err? {
      return Err(split.error);
    }
    var (name, prefix) := split.value;
    var header := FillHeader(name, prefix, mode, size, typeflag);
    return Ok(out + header);
  }

  /** Fills a zeroed header field by field, then sums it and overwrites the blanks with the checksum. */
  method FillHeader(name: bytes, prefix: bytes, mode: nat, size: nat, typeflag: byte) returns (r: bytes)
    ensures r == Header(name, prefix, mode, size, typeflag)
  {
    hide Overlay;
    hide FrontPart;
    hide BackPart;
    hide OctalDigits;
    ghost var front, back := FrontPart(name, mode, size), BackPart(typeflag, prefix);
    var blanks := Repeat(8, SPACE);
    FrontLayout(name, mode, size);
    var header := new byte[512](_ => 0);
    assert header[..] == Zeros(512);
    WriteFront(header, name, mode, size);
    WriteBytes(header, 148, 156, blanks);
    OverlayZeros(front, 8, 364, blanks);
    assert FieldOf(blanks, 8) == blanks;
    WriteBack(header, front + blanks, typeflag, prefix);
    var sum := SumOf(header);
    WriteBytes(header, 148, 156, OctalDigits(sum, 6) + [0, SPACE]);
    OctalDigitsFacts(sum, 6);
    OverlayMiddle(front, blanks, back, OctalDigits(sum, 6) + [0, SPACE]);
    return header[..];
  }

  method WriteFront(header: array<byte>, name: bytes, mode: nat, size: nat)
    requires header.Length == BLOCK && header[..] == Zeros(512)
    modifies header
    ensures header[..] == FrontPart(name, mode, size) + Zeros(364)
  {
    WriteBytes(header, 0, 100, name);
    OverlayZeros([], 100, 512, name);
    ghost var done := FieldOf(name, 100);
    FieldWidth(name, 100);
    assert [] + Zeros(512) == Zeros(512) && [] + done == done;
    WriteOctalAt(header, 100, 8, mode, done);
    done := done + WriteOctal(mode, 8);
    OctalWidth(mode, 8);
    WriteOctalAt(header, 108, 8, 0, done);
    done := done + WriteOctal(0, 8);
    OctalWidth(0, 8);
    WriteOctalAt(header, 116, 8, 0, done);
    done := done + WriteOctal(0, 8);
    WriteOctalAt(header, 124, 12, size, done);
    done := done + WriteOctal(size, 12);
    OctalWidth(size, 12);
    WriteOctalAt(header, 136, 12, 0, done);
  }

  /** `write_octal` on the `width` bytes at `at`, behind the part `done`. */
  method WriteOctalAt(header: array<byte>, at: nat, width: nat, v: nat, ghost done: bytes)
    requires 0 < width && at == |done| && at + width <= header.Length && header[..] == done + Zeros(header.Length - at)
    modifies header
    ensures header[..] == done + WriteOctal(v, width) + Zeros(header.Length - at - width)
  {
    WriteBytes(header, at, at + width, OctalDigits(v, width - 1) + [0]);
    OverlayZeros(done, width, header.Length - at, OctalDigits(v, width - 1) + [0]);
  }

  method WriteBack(header: array<byte>, ghost done: bytes, typeflag: byte, prefix: bytes)
    requires header.Length == BLOCK && |done| == 156 && header[..] == done + Zeros(356)
    modifies header
    ensures header[..] == done + BackPart(typeflag, prefix)
  {
    hide Overlay;
    hide FieldOf;
    header[156] := typeflag;
    ghost var d := done + [typeflag];
    assert header[..] == d + Zeros(355);
    SkipZeros(d, 100, 355);
    WriteMagic(header, d + Zeros(100));
    ghost var magic := d + Zeros(100) + USTAR_MAGIC;
    SkipZeros(magic, 80, 247);
    WriteBytes(header, 345, 500, prefix);
    OverlayZeros(magic + Zeros(80), 155, 167, prefix);
    BackAssociates(done, typeflag, prefix);
  }

  lemma BackAssociates(done: bytes, typeflag: byte, prefix: bytes)
    ensures done + [typeflag] + Zeros(100) + USTAR_MAGIC + Zeros(80) + FieldOf(prefix, PREFIX_WIDTH) + Zeros(12)
         == done + BackPart(typeflag, prefix)
  {
  }

  /** The magic and the version, behind the part `done`. */
  method WriteMagic(header: array<byte>, ghost done: bytes)
    requires header.Length == BLOCK && |done| == 257 && header[..] == done + Zeros(255)
    modifies header
    ensures header[..] == done + USTAR_MAGIC + Zeros(247)
  {
    hide Overlay;
    var name, version := [117, 115, 116, 97, 114, 0], [48, 48];
    assert FieldOf(name, 6) == name && FieldOf(version, 2) == version;
    hide FieldOf;
    WriteBytes(header, 257, 263, name);
    OverlayZeros(done, 6, 255, name);
    WriteBytes(header, 263, 265, version);
    OverlayZeros(done + name, 2, 249, version);
    assert done + name + version == done + USTAR_MAGIC;
  }

  method SumOf(header: array<byte>) returns (sum: nat)
    ensures sum == Sum(header[..])
  {
    sum := 0;
    for i := 0 to header.Length
      invariant sum == Sum(header[..i])
    {
      assert header[..i + 1][..i] == header[..i];
      sum := sum + header[i];
    }
    assert header[..header.Length] == header[..];
  }
}
