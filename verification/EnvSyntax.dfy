/**
 * What the words and lines of an environment file mean, whoever wrote them
 * (guest-agent/src/env.rs).
 */
module EnvSyntax {
  import opened Text
  import opened EnvScript

  // ---------------------------------------------------------------- characters

  /** A letter of the ASCII alphabet, by its code. */
  predicate IsLetter(c: char) {
    65 <= c as int <= 90 || 97 <= c as int <= 122
  }

  predicate IsDigit(c: char) {
    48 <= c as int <= 57
  }

  /** A key is a letter or underscore followed by letters, underscores and digits. */
  lemma KeyGrammar(key: string)
    ensures ValidKey(key) <==>
      && key != [] && (key[0] == '_' || IsLetter(key[0]))
      && forall i :: 1 <= i < |key| ==> key[i] == '_' || IsLetter(key[i]) || IsDigit(key[i])
  {
  }

  /** Among the ASCII characters, blank and the five from tab to carriage return are white space. */
  lemma AsciiWhitespace(c: char)
    requires c as int < 128
    ensures IsWhitespace(c) <==> c as int == 32 || 9 <= c as int <= 13
  {
  }

  /**
   * What is written is one word that a shell takes literally: letters, digits and a
   * few signs without a meaning of their own, or everything in single quotes.
   */
  lemma WrittenLiterally(value: string)
    ensures var w := ShellQuote(value);
      || (w == value && w != []
          && forall i :: 0 <= i < |w| ==> IsLetter(w[i]) || IsDigit(w[i]) || w[i] in "@%_+=:,./-")
      || (|w| >= 2 && w[0] == '\'' && w[|w| - 1] == '\'' && w[1..|w| - 1] == Escape(value))
  {
    if AllSafe(value) {
      forall i | 0 <= i < |value| ensures IsLetter(value[i]) || IsDigit(value[i]) || value[i] in "@%_+=:,./-" {
        assert SafeChar(value[i]);
      }
    }
  }

  // ---------------------------------------------------------------- words

  /** The pieces of a shell word. */
  datatype Piece = Bare(text: string) | InSingle(text: string) | InDouble(text: string) | Escaped(c: char)

  predicate WellFormed(p: Piece) {
    match p
    case Bare(text) =>
      forall i :: 0 <= i < |text| ==>
        text[i] != '\'' && text[i] != '"' && text[i] != '\\' && !IsWhitespace(text[i])
    case InSingle(text) => '\'' !in text
    case InDouble(_) => true
    case Escaped(_) => true
  }

  /** Backslashes in front of double quotes and backslashes. */
  function Guarded(text: string): string {
    if text == [] then []
    else (if text[0] == '"' || text[0] == '\\' then "\\" + [text[0]] else [text[0]]) + Guarded(text[1..])
  }

  function Written(p: Piece): string {
    match p
    case Bare(text) => text
    case InSingle(text) => "'" + text + "'"
    case InDouble(text) => "\"" + Guarded(text) + "\""
    case Escaped(c) => "\\" + [c]
  }

  /** The text of a piece, without its quotes. */
  function Meant(p: Piece): string {
    match p
    case Escaped(c) => [c]
    case _ => p.text
  }

  function WrittenAll(pieces: seq<Piece>): string {
    if pieces == [] then "" else Written(pieces[0]) + WrittenAll(pieces[1..])
  }

  function MeantAll(pieces: seq<Piece>): string {
    if pieces == [] then "" else Meant(pieces[0]) + MeantAll(pieces[1..])
  }

  // The sequence facts below keep concatenations out of the lemmas about the parser.

  lemma OneAhead(c: char, more: string, tail: string)
    ensures var s := [c] + more + tail; s != [] && s[0] == c && s[1..] == more + tail
  {
  }

  lemma TwoAhead(b: char, c: char, more: string, tail: string)
    ensures var s := [b] + [c] + more + tail; |s| > 1 && s[0] == b && s[1] == c && s[2..] == more + tail
  {
  }

  lemma HeadAndTail(text: string, x: string)
    requires text != []
    ensures text == [text[0]] + text[1..] && text + x == [text[0]] + (text[1..] + x)
  {
  }

  lemma Quoted(q: char, text: string, rest: string)
    ensures var s := [q] + text + [q] + rest; s != [] && s[0] == q && s[1..] == text + ([q] + rest)
  {
  }

  lemma {:induction false} BareDenotes(text: string, rest: string)
    requires WellFormed(Bare(text))
    ensures ParseValue(text + rest, Plain) == text + ParseValue(rest, Plain)
  {
    hide ParseValue;
    if text == [] {
      assert text + rest == rest;
    } else {
      BareDenotes(text[1..], rest);
      HeadAndTail(text, rest);
      OneAhead(text[0], text[1..], rest);
      PlainStep(text + rest);
      HeadAndTail(text, ParseValue(rest, Plain));
    }
  }

  lemma {:induction false} SingleDenotes(text: string, rest: string)
    requires '\'' !in text
    ensures ParseValue(text + ("'" + rest), Single) == text + ParseValue(rest, Plain)
  {
    hide ParseValue;
    var tail := "'" + rest;
    SingleStep(text + tail);
    if text == [] {
      assert text + tail == tail && tail[0] == '\'' && tail[1..] == rest;
    } else {
      SingleDenotes(text[1..], rest);
      HeadAndTail(text, tail);
      OneAhead(text[0], text[1..], tail);
      HeadAndTail(text, ParseValue(rest, Plain));
    }
  }

  /** What the next character does inside double quotes. */
  lemma DoubleStep(s: string)
    requires s != []
    ensures ParseValue(s, Double) ==
      if s[0] == '"' then ParseValue(s[1..], Plain)
      else if s[0] == '\\' then if |s| > 1 then [s[1]] + ParseValue(s[2..], Double) else []
      else [s[0]] + ParseValue(s[1..], Double)
  {
  }

  /** The first character of a guarded text, with or without its backslash, and the rest. */
  lemma GuardedShape(text: string, tail: string)
    requires text != []
    ensures var s, rest := Guarded(text) + tail, Guarded(text[1..]) + tail;
      if text[0] == '"' || text[0] == '\\' then |s| > 1 && s[0] == '\\' && s[1] == text[0] && s[2..] == rest
      else s != [] && s[0] == text[0] && s[1..] == rest
  {
    GuardedCons(text);
    var more := Guarded(text[1..]);
    hide Guarded;
    if text[0] == '"' || text[0] == '\\' {
      TwoAhead('\\', text[0], more, tail);
    } else {
      OneAhead(text[0], more, tail);
    }
  }

  lemma GuardedCons(text: string)
    requires text != []
    ensures Guarded(text)
         == (if text[0] == '"' || text[0] == '\\' then "\\" + [text[0]] else [text[0]]) + Guarded(text[1..])
  {
  }

  lemma {:induction false} DoubleDenotes(text: string, rest: string)
    ensures ParseValue(Guarded(text) + ("\"" + rest), Double) == text + ParseValue(rest, Plain)
  {
    hide ParseValue;
    var tail := "\"" + rest;
    var s := Guarded(text) + tail;
    DoubleStep(s);
    if text == [] {
      assert s == tail && tail[0] == '"' && tail[1..] == rest;
    } else {
      DoubleDenotes(text[1..], rest);
      GuardedShape(text, tail);
      hide Guarded;
      HeadAndTail(text, ParseValue(rest, Plain));
    }
  }

  lemma PieceDenotes(p: Piece, rest: string)
    requires WellFormed(p)
    ensures ParseValue(Written(p) + rest, Plain) == Meant(p) + ParseValue(rest, Plain)
  {
    hide ParseValue;
    match p
    case Bare(text) => BareDenotes(text, rest);
    case InSingle(text) =>
      Quoted('\'', text, rest);
      PlainStep("'" + text + "'" + rest);
      SingleDenotes(text, rest);
    case InDouble(text) =>
      Quoted('"', Guarded(text), rest);
      PlainStep("\"" + Guarded(text) + "\"" + rest);
      DoubleDenotes(text, rest);
    case Escaped(c) =>
      TwoAhead('\\', c, "", rest);
      assert "\\" + [c] + rest == ['\\'] + [c] + "" + rest && "" + rest == rest;
      PlainStep("\\" + [c] + rest);
  }

  /**
   * What a word means: bare text, text in single quotes, text in double quotes with
   * its quotes and backslashes guarded, and escaped characters, in any succession,
   * denote their texts one after the other; the word ends at white space.
   */
  lemma {:induction false} WordDenotes(pieces: seq<Piece>, rest: string)
    requires (forall i :: 0 <= i < |pieces| ==> WellFormed(pieces[i])) && (rest == [] || IsWhitespace(rest[0]))
    ensures ParseValue(WrittenAll(pieces) + rest, Plain) == MeantAll(pieces)
  {
    hide ParseValue;
    if pieces == [] {
      assert WrittenAll(pieces) + rest == rest;
      WordEnds(rest);
    } else {
      WordDenotes(pieces[1..], rest);
      PieceDenotes(pieces[0], WrittenAll(pieces[1..]) + rest);
      assert WrittenAll(pieces) + rest == Written(pieces[0]) + (WrittenAll(pieces[1..]) + rest);
    }
  }

  lemma WordEnds(rest: string)
    requires rest == [] || IsWhitespace(rest[0])
    ensures ParseValue(rest, Plain) == []
  {
  }

  /** A quote that is not closed reaches to the end, and a backslash at the very end is dropped. */
  lemma {:induction false} Unclosed(text: string)
    ensures '\'' !in text ==> ParseValue("'" + text, Plain) == text
    ensures ParseValue("\"" + Guarded(text), Plain) == text
    ensures ParseValue("\\", Plain) == [] && ParseValue("\"" + Guarded(text) + "\\", Plain) == text
  {
    UnclosedSingle(text);
    UnclosedDouble(text);
    assert ("'" + text)[1..] == text;
    assert ("\"" + Guarded(text))[1..] == Guarded(text);
    assert ("\"" + Guarded(text) + "\\")[1..] == Guarded(text) + "\\";
  }

  lemma {:induction false} UnclosedSingle(text: string)
    ensures '\'' !in text ==> ParseValue(text, Single) == text
  {
    if text != [] && '\'' !in text {
      UnclosedSingle(text[1..]);
      assert text == [text[0]] + text[1..];
    }
  }

  lemma {:induction false} UnclosedDouble(text: string)
    ensures ParseValue(Guarded(text), Double) == text && ParseValue(Guarded(text) + "\\", Double) == text
  {
    hide ParseValue;
    var a, b := Guarded(text), Guarded(text) + "\\";
    DoubleStep(b);
    if text == [] {
      assert b == "\\" && a == [];
      NothingLeft(Double);
    } else {
      UnclosedDouble(text[1..]);
      GuardedShape(text, "");
      GuardedShape(text, "\\");
      assert a + "" == a && Guarded(text[1..]) + "" == Guarded(text[1..]);
      DoubleStep(a);
      hide Guarded;
      HeadAndTail(text, "");
    }
  }

  // ---------------------------------------------------------------- lines

  lemma {:induction false} TrimAround(before: string, s: string, after: string)
    requires s != [] && !IsWhitespace(s[0]) && !IsWhitespace(s[|s| - 1])
    requires forall i :: 0 <= i < |before| ==> IsWhitespace(before[i])
    requires forall i :: 0 <= i < |after| ==> IsWhitespace(after[i])
    ensures Trim(before + s + after) == s
  {
    StartTrimmed(before, s, after);
    EndTrimmed(s, after);
  }

  lemma {:induction false} StartTrimmed(before: string, s: string, after: string)
    requires s != [] && !IsWhitespace(s[0]) && forall i :: 0 <= i < |before| ==> IsWhitespace(before[i])
    ensures TrimStart(before + s + after) == s + after
  {
    if before == [] {
      assert before + s + after == s + after;
    } else {
      StartTrimmed(before[1..], s, after);
      assert (before + s + after)[1..] == before[1..] + s + after;
    }
  }

  lemma {:induction false} EndTrimmed(s: string, after: string)
    requires s != [] && !IsWhitespace(s[|s| - 1]) && forall i :: 0 <= i < |after| ==> IsWhitespace(after[i])
    ensures TrimEnd(s + after) == s
  {
    if after == [] {
      assert s + after == s;
    } else {
      EndTrimmed(s, after[..|after| - 1]);
      assert (s + after)[..|s + after| - 1] == s + after[..|after| - 1];
    }
  }

  /**
   * What a line means: `export`, a valid key and a word, with white space around
   * it, sets the variable to what the word denotes.
   */
  lemma ExportDenotes(vars: Vars, before: string, key: string, word: string, after: string)
    requires ValidKey(key) && (word != [] ==> !IsWhitespace(word[|word| - 1]))
    requires forall i :: 0 <= i < |before| ==> IsWhitespace(before[i])
    requires forall i :: 0 <= i < |after| ==> IsWhitespace(after[i])
    ensures ReadLine(vars, before + ("export " + key + "=" + word) + after) == vars[key := ParseValue(word, Plain)]
  {
    hide ParseValue;
    hide Trim;
    hide SplitOnce;
    hide ValidKey;
    var s := "export " + key + "=" + word;
    ExportParts(key, word);
    TrimAround(before, s, after);
    KeyHasNoEquals(key);
    SplitOnceAt(key, '=', word);
  }

  lemma ExportParts(key: string, word: string)
    requires word != [] ==> !IsWhitespace(word[|word| - 1])
    ensures var s := "export " + key + "=" + word;
      && |s| >= 8 && !IsWhitespace(s[0]) && !IsWhitespace(s[|s| - 1])
      && "export " <= s && s[7..] == key + ['='] + word
  {
    var s := "export " + key + "=" + word;
    assert s[0] == 'e' && s[|s| - 1] == if word == [] then '=' else word[|word| - 1];
    assert s[..7] == "export ";
  }

  lemma KeyHasNoEquals(key: string)
    requires ValidKey(key)
    ensures '=' !in key
  {
  }

  /** A line that says nothing to the reader: a comment, a line without `export`, or one whose key is not valid. */
  lemma OtherLines(vars: Vars, before: string, text: string)
    requires forall i :: 0 <= i < |before| ==> IsWhitespace(before[i])
    requires text != [] && !IsWhitespace(text[0]) && !IsWhitespace(text[|text| - 1])
    requires !("export " <= text) || '=' !in text[7..] || !ValidKey(text[7..7 + IndexOf(text[7..], '=')])
    ensures ReadLine(vars, before + text) == vars
  {
    hide ParseValue;
    TrimAround(before, text, "");
    assert before + text + "" == before + text;
    hide Trim;
    if "export " <= text {
      var rest := text[7..];
      var i := IndexOf(rest, '=');
      assert i < |rest| ==> rest[i] == '=' && rest[..i] == text[7..7 + i];
      assert i == |rest| ==> rest[..i] == rest;
    }
  }

  lemma {:induction false} ReadInTurn(vars: Vars, a: seq<string>, b: seq<string>)
    ensures ReadLines(vars, a + b) == ReadLines(ReadLines(vars, a), b)
    decreases |a|
  {
    if a == [] {
      assert a + b == b;
    } else {
      ReadInTurn(ReadLine(vars, a[0]), a[1..], b);
      assert (a + b)[1..] == a[1..] + b;
    }
  }

  /**
   * A file means what its lines mean, one after the other, whether they end in a
   * line feed or a carriage return and line feed; a last line without an end counts.
   */
  lemma FileDenotes(vars: Vars, line: string, rest: string)
    requires '\n' !in line
    ensures ReadLines(vars, Lines(line + "\r\n" + rest)) == ReadLines(ReadLine(vars, line), Lines(rest))
    ensures (line == [] || line[|line| - 1] != '\r') ==>
      ReadLines(vars, Lines(line + "\n" + rest)) == ReadLines(ReadLine(vars, line), Lines(rest))
    ensures line != [] ==> ReadLines(vars, Lines(line)) == ReadLine(vars, line)
  {
    hide ReadLine;
    var head := line + "\r";
    var s := line + "\r\n" + rest;
    assert '\n' !in head;
    IndexOfAppend(head, '\n', rest);
    assert s == head + ['\n'] + rest && s[..|head|] == head && s[|head| + 1..] == rest;
    assert StripCarriageReturn(head) == line;
    assert Lines(s) == [line] + Lines(rest);
    FirstLine(vars, line, Lines(rest));
    if line == [] || line[|line| - 1] != '\r' {
      LinesCons(line, rest);
    }
    if line != [] {
      assert IndexOf(line, '\n') == |line|;
      assert Lines(line) == [line] + [];
      FirstLine(vars, line, []);
    }
  }

  lemma FirstLine(vars: Vars, line: string, rest: seq<string>)
    ensures ReadLines(vars, [line] + rest) == ReadLines(ReadLine(vars, line), rest)
  {
    hide ReadLine;
    assert ([line] + rest)[1..] == rest;
  }
}
