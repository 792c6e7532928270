/**
 * What the headers of a response mean (celesto-core/src/firecracker.rs): the
 * status and the length that a printed head denotes, and the law of the reader.
 */
module HttpHead {
  import opened Common
  import opened Text
  import opened HttpResponse

  // ---------------------------------------------------------------- numbers

  const DIGITS := "0123456789"

  /** A number in decimal. */
  function Decimal(n: nat): string {
    if n < 10 then [DIGITS[n]] else Decimal(n / 10) + [DIGITS[n % 10]]
  }

  lemma DigitFacts(d: nat)
    requires d < 10
    ensures IsAsciiDigit(DIGITS[d]) && DIGITS[d] as int - '0' as int == d && !IsWhitespace(DIGITS[d])
  {
  }

  lemma {:induction false} DecimalFacts(n: nat)
    ensures var s := Decimal(n);
      s != [] && (forall i :: 0 <= i < |s| ==> IsAsciiDigit(s[i])) && DigitsValue(s) == n
  {
    DigitFacts(n % 10);
    if n < 10 {
      assert [DIGITS[n]][..0] == [];
    } else {
      DecimalFacts(n / 10);
      var init := Decimal(n / 10);
      assert Decimal(n)[..|init|] == init;
    }
  }

  /** A printed number is read back, if it is within the range of its type. */
  lemma DecimalReadsBack(n: nat, max: nat)
    ensures ParseNumber(Decimal(n), max) == if n <= max then Some(n) else None
  {
    DecimalFacts(n);
    assert Decimal(n)[0] != '+' by { assert IsAsciiDigit(Decimal(n)[0]); }
  }

  // ---------------------------------------------------------------- lines

  /** Lines as HTTP writes them, with line ends between them. */
  function Printed(lines: seq<string>): string {
    if lines == [] then "" else if |lines| == 1 then lines[0] else lines[0] + "\r\n" + Printed(lines[1..])
  }

  predicate IsLine(line: string) {
    line != [] && '\n' !in line && line[|line| - 1] != '\r'
  }

  lemma CrLfLine(line: string, rest: string)
    requires '\n' !in line
    ensures Lines(line + "\r\n" + rest) == [line] + Lines(rest)
  {
    var s := line + "\r\n" + rest;
    var head := line + "\r";
    assert '\n' !in head;
    IndexOfAppend(head, '\n', rest);
    assert s == head + ['\n'] + rest;
    assert s[..|head|] == head && s[|head| + 1..] == rest;
    assert StripCarriageReturn(head) == line;
  }

  lemma LastLine(line: string)
    requires IsLine(line)
    ensures Lines(line) == [line]
  {
    assert IndexOf(line, '\n') == |line|;
  }

  lemma {:induction false} PrintedReadsBack(lines: seq<string>)
    requires forall i :: 0 <= i < |lines| ==> IsLine(lines[i])
    ensures Lines(Printed(lines)) == lines
  {
    if |lines| == 1 {
      LastLine(lines[0]);
    } else if |lines| > 1 {
      PrintedReadsBack(lines[1..]);
      CrLfLine(lines[0], Printed(lines[1..]));
    }
  }

  // ---------------------------------------------------------------- the status line

  lemma {:induction false} WordEndOf(word: string, rest: string)
    requires (forall i :: 0 <= i < |word| ==> !IsWhitespace(word[i])) && (rest == [] || IsWhitespace(rest[0]))
    ensures WordEnd(word + rest) == |word|
  {
    if word == [] {
      assert word + rest == rest;
    } else {
      WordEndOf(word[1..], rest);
      assert (word + rest)[1..] == word[1..] + rest;
    }
  }

  lemma FirstWord(word: string, rest: string)
    requires word != [] && (forall i :: 0 <= i < |word| ==> !IsWhitespace(word[i]))
    requires rest == [] || IsWhitespace(rest[0])
    ensures Words(word + rest) == [word] + Words(rest)
  {
    WordEndOf(word, rest);
    var s := word + rest;
    assert s[..|word|] == word && s[|word|..] == rest;
  }

  /** The second word of a status line is its status. */
  lemma StatusWord(version: string, status: nat, reason: string)
    requires version != [] && (forall i :: 0 <= i < |version| ==> !IsWhitespace(version[i]))
    requires reason == [] || IsWhitespace(reason[0])
    ensures var words := Words(version + " " + Decimal(status) + reason);
      |words| >= 2 && words[1] == Decimal(status)
  {
    hide Decimal;
    hide Words;
    DecimalFacts(status);
    hide DigitsValue;
    var digits := Decimal(status);
    forall i | 0 <= i < |digits| ensures !IsWhitespace(digits[i]) {
      assert IsAsciiDigit(digits[i]);
    }
    hide IsAsciiDigit;
    TwoWords(version, digits, reason);
  }

  lemma TwoWords(first: string, second: string, rest: string)
    requires first != [] && (forall i :: 0 <= i < |first| ==> !IsWhitespace(first[i]))
    requires second != [] && (forall i :: 0 <= i < |second| ==> !IsWhitespace(second[i]))
    requires rest == [] || IsWhitespace(rest[0])
    ensures var words := Words(first + " " + second + rest); |words| >= 2 && words[1] == second
  {
    hide Words;
    var tail := second + rest;
    var more := " " + tail;
    assert more[0] == ' ';
    FirstWord(second, rest);
    FirstWord(first, more);
    hide IsWhitespace;
    BlankSkipped(tail);
    Associates(first, second, rest);
    var words := [second] + Words(rest);
    assert Words(first + " " + second + rest) == [first] + words && words[0] == second;
  }

  lemma Associates(first: string, second: string, rest: string)
    ensures first + " " + second + rest == first + (" " + (second + rest))
  {
  }

  lemma BlankSkipped(s: string)
    ensures Words(" " + s) == Words(s)
  {
    assert (" " + s)[1..] == s;
  }

  // ---------------------------------------------------------------- Content-Length

  const LOWER := "content-length"
  const UPPER := "CONTENT-LENGTH"

  /** The name in any mixture of small and capital letters. */
  ghost predicate IsContentLength(name: string) {
    |name| == |LOWER| && forall i :: 0 <= i < |name| ==> name[i] == LOWER[i] || name[i] == UPPER[i]
  }

  lemma {:induction false} LowerAt(s: string)
    ensures |LowerAscii(s)| == |s|
    ensures forall i :: 0 <= i < |s| ==>
      LowerAscii(s)[i] == if 'A' <= s[i] <= 'Z' then (s[i] as int + 32) as char else s[i]
  {
    if s != [] {
      LowerAt(s[1..]);
    }
  }

  lemma LetterPair(i: nat, c: char)
    requires i < |LOWER|
    ensures (if 'A' <= c <= 'Z' then (c as int + 32) as char else c) == LOWER[i] <==> c == LOWER[i] || c == UPPER[i]
  {
  }

  lemma NameInAnyCase(name: string)
    ensures LowerAscii(name) == "content-length" <==> IsContentLength(name)
  {
    LowerAt(name);
    if |name| == |LOWER| {
      forall i | 0 <= i < |name| ensures LowerAscii(name)[i] == LOWER[i] <==>
          name[i] == LOWER[i] || name[i] == UPPER[i] {
        LetterPair(i, name[i]);
      }
      if IsContentLength(name) {
        assert LowerAscii(name) == LOWER;
      } else {
        var i :| 0 <= i < |name| && !(name[i] == LOWER[i] || name[i] == UPPER[i]);
        assert LowerAscii(name)[i] != LOWER[i];
      }
    }
  }

  /** A header line that is not a Content-Length. */
  ghost predicate IsOther(line: string) {
    var f := SplitOnce(line, ':');
    f.None? || !IsContentLength(f.value.0)
  }

  lemma {:induction false} OthersSkipped(others: seq<string>, rest: seq<string>)
    requires forall i :: 0 <= i < |others| ==> IsOther(others[i])
    ensures ParseContentLength(others + rest) == ParseContentLength(rest)
  {
    if others == [] {
      assert others + rest == rest;
    } else {
      OthersSkipped(others[1..], rest);
      assert (others + rest)[0] == others[0] && (others + rest)[1..] == others[1..] + rest;
      if SplitOnce(others[0], ':').Some? {
        NameInAnyCase(SplitOnce(others[0], ':').value.0);
      }
    }
  }

  lemma LengthLine(name: string, length: nat, rest: seq<string>)
    requires IsContentLength(name) && length <= MAX_USIZE
    ensures ParseContentLength([name + ": " + Decimal(length)] + rest) == Ok(Some(length))
  {
    var line := name + ": " + Decimal(length);
    assert ':' !in name;
    SplitOnceAt(name, ':', " " + Decimal(length));
    assert line == name + [':'] + (" " + Decimal(length));
    NameInAnyCase(name);
    TrimmedNumber(length);
    DecimalReadsBack(length, MAX_USIZE);
    assert ([line] + rest)[0] == line;
  }

  lemma TrimmedNumber(n: nat)
    ensures Trim(" " + Decimal(n)) == Decimal(n)
  {
    DecimalFacts(n);
    var s := Decimal(n);
    hide Decimal;
    hide DigitsValue;
    assert IsAsciiDigit(s[0]) && IsAsciiDigit(s[|s| - 1]);
    assert (" " + s)[1..] == s && (" " + s)[0] == ' ';
    assert TrimStart(" " + s) == TrimStart(s) == s;
    assert TrimEnd(s) == s;
  }

  // ---------------------------------------------------------------- the law

  /** A response head: the status line, other fields, the length, and whatever fields follow. */
  function Head(version: string, status: nat, reason: string, others: seq<string>, name: string, length: nat,
                more: seq<string>): seq<string>
  {
    [version + " " + Decimal(status) + reason] + others + [name + ": " + Decimal(length)] + more
  }

  /** A head denotes its status and its length, unless the length is beyond what the client accepts. */
  lemma HeadDenotes(version: string, status: nat, reason: string, others: seq<string>, name: string, length: nat,
                    more: seq<string>)
    requires version != [] && (forall i :: 0 <= i < |version| ==> !IsWhitespace(version[i]))
    requires (reason == [] || IsWhitespace(reason[0])) && status <= 0xFFFF && length <= MAX_USIZE
    requires (forall i :: 0 <= i < |others| ==> IsOther(others[i])) && IsContentLength(name)
    requires var lines := Head(version, status, reason, others, name, length, more);
      forall i :: 0 <= i < |lines| ==> IsLine(lines[i])
    ensures ParseHead(Printed(Head(version, status, reason, others, name, length, more)))
         == if length <= 1048576 then Ok((status, Some(length))) else Err(BodyTooLarge)
  {
    hide Decimal;
    hide Words;
    hide Lines;
    hide Printed;
    hide ParseContentLength;
    hide ParseNumber;
    hide ParseHead;
    hide IsOther;
    hide IsContentLength;
    hide IsWhitespace;
    var first, last := version + " " + Decimal(status) + reason, name + ": " + Decimal(length);
    var lines := Head(version, status, reason, others, name, length, more);
    PrintedReadsBack(lines);
    HeadParts(first, others, last, more);
    StatusWord(version, status, reason);
    DecimalReadsBack(status, 0xFFFF);
    OthersSkipped(others, [last] + more);
    LengthLine(name, length, more);
    HeadOfLines(Printed(lines), status, Some(length));
  }

  lemma HeadParts(first: string, others: seq<string>, last: string, more: seq<string>)
    ensures var lines := [first] + others + [last] + more; lines[0] == first && lines[1..] == others + ([last] + more)
  {
  }

  lemma HeadOfLines(headers: string, status: nat, length: Option<nat>)
    requires var lines := Lines(headers);
      && lines != [] && |Words(lines[0])| >= 2 && ParseNumber(Words(lines[0])[1], 0xFFFF) == Some(status)
      && ParseContentLength(lines[1..]) == Ok(length)
    ensures ParseHead(headers) ==
              if length.Some? && length.value > 1048576 then Err(BodyTooLarge) else Ok((status, length))
  {
    hide Lines;
    hide Words;
    hide ParseNumber;
    hide ParseContentLength;
  }

  /** Without a Content-Length among its fields a head denotes its status and no length. */
  lemma HeadWithoutLength(version: string, status: nat, reason: string, others: seq<string>)
    requires version != [] && (forall i :: 0 <= i < |version| ==> !IsWhitespace(version[i]))
    requires (reason == [] || IsWhitespace(reason[0])) && status <= 0xFFFF
    requires (forall i :: 0 <= i < |others| ==> IsOther(others[i]) && IsLine(others[i]))
    requires IsLine(version + " " + Decimal(status) + reason)
    ensures ParseHead(Printed([version + " " + Decimal(status) + reason] + others)) == Ok((status, None))
  {
    var lines := [version + " " + Decimal(status) + reason] + others;
    OthersSkipped(others, []);
    assert ParseContentLength([]) == Ok(None);
    hide Decimal;
    hide Words;
    hide Lines;
    hide Printed;
    hide ParseNumber;
    hide ParseContentLength;
    hide ParseHead;
    hide IsOther;
    hide IsWhitespace;
    PrintedReadsBack(lines);
    StatusWord(version, status, reason);
    DecimalReadsBack(status, 0xFFFF);
    assert lines[1..] == others && others + [] == others;
    HeadOfLines(Printed(lines), status, None);
  }

  /**
   * The law of the reader, as section 6.3 of RFC 9112 has it: a stream whose head
   * announces the length of what follows the blank line yields the status and
   * exactly that body, whatever comes behind it; and by the contract of
   * `ReadResponse` this is its answer for every accepted split into reads.
   */
  lemma ResponseDenotes(s: bytes, decode: bytes -> string, version: string, status: nat, reason: string,
                        others: seq<string>, name: string, body: bytes, more: seq<string>)
    requires version != [] && (forall i :: 0 <= i < |version| ==> !IsWhitespace(version[i]))
    requires (reason == [] || IsWhitespace(reason[0])) && status <= 0xFFFF && |body| <= 1048576
    requires (forall i :: 0 <= i < |others| ==> IsOther(others[i])) && IsContentLength(name)
    requires var lines := Head(version, status, reason, others, name, |body|, more);
      && (forall i :: 0 <= i < |lines| ==> IsLine(lines[i]))
      && FindMarker(s, 0).Some? && decode(s[..FindMarker(s, 0).value]) == Printed(lines)
      && body <= s[FindMarker(s, 0).value + 4..]
    ensures WholeResponse(s, decode) == Ok((status, Some(body)))
  {
    HeadDenotes(version, status, reason, others, name, |body|, more);
    hide ParseHead;
    hide Printed;
    hide Head;
    var split := FindMarker(s, 0).value;
    assert s[split + 4..split + 4 + |body|] == body;
  }

  /** CR LF CR LF at position `k`. */
  ghost predicate BlankAt(s: bytes, k: nat) {
    k + 4 <= |s| && s[k..k + 4] == [13, 10, 13, 10]
  }

  /** The blank line is the first one. */
  lemma {:induction false} FirstBlankLine(s: bytes, i: nat)
    ensures var p := FindMarker(s, i);
      && (p.Some? ==> BlankAt(s, p.value) && forall k :: i <= k < p.value ==> !BlankAt(s, k))
      && (p.None? ==> forall k :: i <= k ==> !BlankAt(s, k))
    decreases |s| - i
  {
    if i + 4 <= |s| {
      MarkerBytes(s, i);
      if !MarkerAt(s, i) {
        FirstBlankLine(s, i + 1);
      }
    }
  }

  lemma MarkerBytes(s: bytes, i: nat)
    requires i + 4 <= |s|
    ensures MarkerAt(s, i) <==> BlankAt(s, i)
  {
    var m := s[i..i + 4];
    assert m[0] == s[i] && m[1] == s[i + 1] && m[2] == s[i + 2] && m[3] == s[i + 3];
  }
}
