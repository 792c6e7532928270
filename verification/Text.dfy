/**
 * The text functions of the Rust standard library that the guest agent and the
 * Firecracker client use: white space, trimming, lines, and splitting once.
 */
module Text {
  import opened Common

  /** The Unicode White_Space property. */
  predicate IsWhitespace(c: char) {
    || '\t' <= c <= '\r' || c == ' ' || c == '\U{85}' || c == '\U{A0}' || c == '\U{1680}'
    || '\U{2000}' <= c <= '\U{200A}' || c == '\U{2028}' || c == '\U{2029}' || c == '\U{202F}'
    || c == '\U{205F}' || c == '\U{3000}'
  }

  predicate IsAsciiAlpha(c: char) {
    'a' <= c <= 'z' || 'A' <= c <= 'Z'
  }

  predicate IsAsciiDigit(c: char) {
    '0' <= c <= '9'
  }

  function TrimStart(s: string): string {
    if s != [] && IsWhitespace(s[0]) then TrimStart(s[1..]) else s
  }

  function TrimEnd(s: string): string {
    if s != [] && IsWhitespace(s[|s| - 1]) then TrimEnd(s[..|s| - 1]) else s
  }

  function Trim(s: string): string {
    TrimEnd(TrimStart(s))
  }

  /** The position of the first `c`, or the length. */
  function IndexOf(s: string, c: char): (i: nat)
    ensures i <= |s| && (i < |s| ==> s[i] == c) && c !in s[..i]
  {
    if s == [] || s[0] == c then 0
    else
      var i := 1 + IndexOf(s[1..], c);
      assert s[..i] == [s[0]] + s[1..][..i - 1];
      i
  }

  function StripCarriageReturn(s: string): string {
    if s != [] && s[|s| - 1] == '\r' then s[..|s| - 1] else s
  }

  /** The lines of a text, without their `\n` or `\r\n`; nothing follows a final line end. */
  function Lines(s: string): seq<string>
    decreases |s|
  {
    if s == [] then []
    else
      var i := IndexOf(s, '\n');
      if i == |s| then [s] else [StripCarriageReturn(s[..i])] + Lines(s[i + 1..])
  }

  /** The parts before and after the first `c`. */
  function SplitOnce(s: string, c: char): Option<(string, string)> {
    var i := IndexOf(s, c);
    if i == |s| then None else Some((s[..i], s[i + 1..]))
  }

  predicate StartsWith(s: string, prefix: string) {
    prefix <= s
  }

  lemma {:induction false} IndexOfAppend(a: string, c: char, b: string)
    requires c !in a
    ensures IndexOf(a + [c] + b, c) == |a|
  {
    if a == [] {
      assert a + [c] + b == [c] + b;
    } else {
      IndexOfAppend(a[1..], c, b);
      assert (a + [c] + b)[1..] == a[1..] + [c] + b;
    }
  }

  /** A line without line ends in it is read back as it was written. */
  lemma LinesCons(line: string, rest: string)
    requires '\n' !in line && (line == [] || line[|line| - 1] != '\r')
    ensures Lines(line + "\n" + rest) == [line] + Lines(rest)
  {
    var s := line + "\n" + rest;
    IndexOfAppend(line, '\n', rest);
    assert s[..|line|] == line && s[|line| + 1..] == rest;
  }

  lemma TrimFixed(s: string)
    requires s != [] && !IsWhitespace(s[0]) && !IsWhitespace(s[|s| - 1])
    ensures Trim(s) == s
  {
  }

  lemma SplitOnceAt(a: string, c: char, b: string)
    requires c !in a
    ensures SplitOnce(a + [c] + b, c) == Some((a, b))
  {
    IndexOfAppend(a, c, b);
    var s := a + [c] + b;
    assert s[..|a|] == a && s[|a| + 1..] == b;
  }

  /** No character of a line is a line end, and every one comes from the text. */
  lemma {:induction false} LinesHaveNoNewline(s: string)
    ensures forall line :: line in Lines(s) ==> '\n' !in line
    decreases |s|
  {
    if s != [] {
      var i := IndexOf(s, '\n');
      if i < |s| {
        LinesHaveNoNewline(s[i + 1..]);
      } else {
        assert s[..i] == s;
      }
    }
  }

  lemma {:induction false} TrimKeepsOut(s: string, c: char)
    requires c !in s
    ensures c !in TrimStart(s) && c !in TrimEnd(s)
  {
    if s != [] {
      TrimKeepsOut(s[1..], c);
      TrimKeepsOut(s[..|s| - 1], c);
    }
  }
}
