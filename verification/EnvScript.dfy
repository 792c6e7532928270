/**
 * The managed environment file of the guest agent (guest-agent/src/env.rs): how
 * variables are written as shell exports and read back.
 */
module EnvScript {
  import opened Text

  type Vars = map<string, string>

  // ---------------------------------------------------------------- values

  predicate SafeChar(c: char) {
    IsAsciiAlpha(c) || IsAsciiDigit(c) || c in "@%_+=:,./-"
  }

  predicate AllSafe(s: string) {
    forall i :: 0 <= i < |s| ==> SafeChar(s[i])
  }

  /** Every single quote closed, escaped and opened again. */
  function Escape(s: string): string {
    if s == [] then [] else (if s[0] == '\'' then "'\\''" else [s[0]]) + Escape(s[1..])
  }

  function ShellQuote(value: string): string {
    if value == [] then "''" else if AllSafe(value) then value else "'" + Escape(value) + "'"
  }

  datatype Mode = Plain | Single | Double

  /** The value a shell word denotes, read from inside the given quoting. */
  function ParseValue(s: string, mode: Mode): string
    decreases |s|
  {
    if s == [] then []
    else
      match mode
      case Single => if s[0] == '\'' then ParseValue(s[1..], Plain) else [s[0]] + ParseValue(s[1..], Single)
      case Double =>
        if s[0] == '"' then ParseValue(s[1..], Plain)
        else if s[0] == '\\' then if |s| > 1 then [s[1]] + ParseValue(s[2..], Double) else []
        else [s[0]] + ParseValue(s[1..], Double)
      case Plain =>
        if s[0] == '\'' then ParseValue(s[1..], Single)
        else if s[0] == '"' then ParseValue(s[1..], Double)
        else if s[0] == '\\' then if |s| > 1 then [s[1]] + ParseValue(s[2..], Plain) else []
        else if IsWhitespace(s[0]) then []
        else [s[0]] + ParseValue(s[1..], Plain)
  }

  /** What the next character does outside quotes. */
  lemma PlainStep(s: string)
    requires s != []
    ensures ParseValue(s, Plain) ==
      if s[0] == '\'' then ParseValue(s[1..], Single)
      else if s[0] == '"' then ParseValue(s[1..], Double)
      else if s[0] == '\\' then if |s| > 1 then [s[1]] + ParseValue(s[2..], Plain) else []
      else if IsWhitespace(s[0]) then []
      else [s[0]] + ParseValue(s[1..], Plain)
  {
  }

  lemma SingleStep(s: string)
    requires s != []
    ensures ParseValue(s, Single) == if s[0] == '\'' then ParseValue(s[1..], Plain)
        else [s[0]] + ParseValue(s[1..], Single)
  {
  }

  lemma NothingLeft(mode: Mode)
    ensures ParseValue([], mode) == []
  {
  }

  /** The reader's loops over the characters. */
  method ParseShellValue(value: string) returns (out: string)
    ensures out == ParseValue(value, Plain)
  {
    hide IsWhitespace;
    hide ParseValue;
    out := [];
    var i := 0;
    NothingLeft(Plain);
    assert value[0..] == value && value[|value|..] == [];
    while i < |value|
      invariant 0 <= i <= |value|
      invariant out + ParseValue(value[i..], Plain) == ParseValue(value, Plain)
      decreases |value| - i
    {
      var ch := value[i];
      PlainStep(value[i..]);
      assert value[i..][1..] == value[i + 1..];
      i := i + 1;
      if ch == '\'' {
        out, i := ReadSingle(value, i, out);
      } else if ch == '"' {
        out, i := ReadDouble(value, i, out);
      } else if ch == '\\' {
        if i < |value| {
          assert value[i - 1..][2..] == value[i + 1..];
          out := out + [value[i]];
          i := i + 1;
        }
      } else if IsWhitespace(ch) {
        return;
      } else {
        out := out + [ch];
      }
    }
  }

  method ReadSingle(value: string, start: nat, before: string) returns (out: string, i: nat)
    requires start <= |value|
    ensures start <= i <= |value|
    ensures out + ParseValue(value[i..], Plain) == before + ParseValue(value[start..], Single)
  {
    hide IsWhitespace;
    out, i := before, start;
    while i < |value|
      invariant start <= i <= |value|
      invariant out + ParseValue(value[i..], Single) == before + ParseValue(value[start..], Single)
      decreases |value| - i
    {
      var inner := value[i];
      ghost var rest := value[i..];
      assert rest[1..] == value[i + 1..];
      i := i + 1;
      if inner == '\'' {
        return;
      }
      out := out + [inner];
    }
    assert value[|value|..] == [];
  }

  method ReadDouble(value: string, start: nat, before: string) returns (out: string, i: nat)
    requires start <= |value|
    ensures start <= i <= |value|
    ensures out + ParseValue(value[i..], Plain) == before + ParseValue(value[start..], Double)
  {
    hide IsWhitespace;
    out, i := before, start;
    while i < |value|
      invariant start <= i <= |value|
      invariant out + ParseValue(value[i..], Double) == before + ParseValue(value[start..], Double)
      decreases |value| - i
    {
      var inner := value[i];
      ghost var rest := value[i..];
      assert rest[1..] == value[i + 1..];
      i := i + 1;
      if inner == '"' {
        return;
      }
      if inner == '\\' {
        if i < |value| {
          assert rest[2..] == value[i + 1..];
          out := out + [value[i]];
          i := i + 1;
        }
      } else {
        out := out + [inner];
      }
    }
    assert value[|value|..] == [];
  }

  // ---------------------------------------------------------------- quote, then parse

  lemma {:induction false} ParseSafe(s: string)
    requires AllSafe(s)
    ensures ParseValue(s, Plain) == s
  {
    if s != [] {
      ParseSafe(s[1..]);
      assert SafeChar(s[0]);
      assert s == [s[0]] + s[1..];
    }
  }

  /** A single quote written as close, escape, open reads as one quote. */
  lemma EscapedQuote(tail: string)
    ensures ParseValue("'\\''" + tail, Single) == "'" + ParseValue(tail, Single)
  {
    hide ParseValue;
    var all := "'\\''" + tail;
    var after := all[1..];
    var reopened := after[2..];
    assert after[0] == '\\' && after[1] == '\'' && reopened[0] == '\'' && reopened[1..] == tail;
    SingleStep(all);
    PlainStep(after);
    PlainStep(reopened);
  }

  lemma {:induction false} ParseEscaped(s: string)
    ensures ParseValue(Escape(s) + "'", Single) == s
  {
    hide ParseValue;
    if s == [] {
      assert Escape(s) + "'" == "'" && "'"[1..] == [];
      SingleStep("'");
      NothingLeft(Plain);
    } else {
      ParseEscaped(s[1..]);
      var tail := Escape(s[1..]) + "'";
      assert s == [s[0]] + s[1..];
      if s[0] == '\'' {
        assert Escape(s) + "'" == "'\\''" + tail;
        EscapedQuote(tail);
      } else {
        var all := [s[0]] + tail;
        assert Escape(s) + "'" == all && all[1..] == tail;
        SingleStep(all);
      }
    }
  }

  /** Reading a quoted value gives the value back, whatever it contains. */
  lemma QuoteThenParse(value: string)
    ensures ParseValue(ShellQuote(value), Plain) == value
  {
    if value == [] {
      assert "''"[1..] == "'" && "'"[1..] == "";
    } else if AllSafe(value) {
      ParseSafe(value);
    } else {
      ParseEscaped(value);
      assert ("'" + Escape(value) + "'")[1..] == Escape(value) + "'";
    }
  }

  // ---------------------------------------------------------------- lines

  predicate ValidKey(key: string) {
    && key != [] && (key[0] == '_' || IsAsciiAlpha(key[0]))
    && forall i :: 1 <= i < |key| ==> key[i] == '_' || IsAsciiAlpha(key[i]) || IsAsciiDigit(key[i])
  }

  datatype Entry = Entry(key: string, value: string)

  function ExportLine(e: Entry): string {
    "export " + e.key + "=" + ShellQuote(e.value)
  }

  function ExportLines(entries: seq<Entry>): string {
    if entries == [] then [] else ExportLine(entries[0]) + "\n" + ExportLines(entries[1..])
  }

  function EmptyNote(): string { "# Celesto environment variables (empty)" }

  function Shebang(): string { "#!/bin/sh" }

  function Title(): string { "# Celesto managed environment variables" }

  /** The script for the variables in listing order: the lines, each ended by a line feed. */
  function Script(entries: seq<Entry>): string {
    if entries == [] then EmptyNote() + "\n"
    else Shebang() + "\n" + (Title() + "\n" + ("" + "\n" + ExportLines(entries)))
  }

  /** The effect of one line on the variables read so far. */
  function ReadLine(vars: Vars, line: string): Vars {
    var l := Trim(line);
    if !StartsWith(l, "export ") then vars
    else
      match SplitOnce(l[7..], '=')
      case None => vars
      case Some((key, value)) => if ValidKey(key) then vars[key := ParseValue(value, Plain)] else vars
  }

  function ReadLines(vars: Vars, lines: seq<string>): Vars
    decreases |lines|
  {
    if lines == [] then vars else ReadLines(ReadLine(vars, lines[0]), lines[1..])
  }

  function ReadScript(content: string): Vars {
    ReadLines(map[], Lines(content))
  }

  /** The loop over the lines of the file. */
  method ReadEnvFile(content: string) returns (vars: Vars)
    ensures vars == ReadScript(content)
  {
    vars := map[];
    var lines := Lines(content);
    assert lines[0..] == lines;
    for i := 0 to |lines|
      invariant ReadLines(vars, lines[i..]) == ReadScript(content)
    {
      assert lines[i..][1..] == lines[i + 1..];
      var line := Trim(lines[i]);
      if StartsWith(line, "export ") {
        var split := SplitOnce(line[7..], '=');
        if split.Some? && ValidKey(split.value.0) {
          var value := ParseShellValue(split.value.1);
          vars := vars[split.value.0 := value];
        }
      }
    }
  }

  // ---------------------------------------------------------------- write, then read

  predicate NewlineFree(s: string) {
    '\n' !in s
  }

  /** The variables an entry list denotes; a later entry overrides an earlier one. */
  function Denotes(vars: Vars, entries: seq<Entry>): Vars
    decreases |entries|
  {
    if entries == [] then vars else Denotes(vars[entries[0].key := entries[0].value], entries[1..])
  }

  lemma {:induction false} EscapeNewline(s: string)
    requires NewlineFree(s)
    ensures NewlineFree(Escape(s))
  {
    if s != [] {
      EscapeNewline(s[1..]);
    }
  }

  lemma QuotedShape(value: string)
    requires NewlineFree(value)
    ensures NewlineFree(ShellQuote(value)) && ShellQuote(value) != []
    ensures var q := ShellQuote(value); SafeChar(q[|q| - 1]) || q[|q| - 1] == '\''
  {
    EscapeNewline(value);
  }

  lemma KeyShape(key: string)
    requires ValidKey(key)
    ensures NewlineFree(key) && '=' !in key
  {
  }

  lemma ExportLineShape(e: Entry)
    requires ValidKey(e.key) && NewlineFree(e.value)
    ensures var l := ExportLine(e);
      && NewlineFree(l) && l[|l| - 1] != '\r' && Trim(l) == l
      && StartsWith(l, "export ") && l[7..] == e.key + "=" + ShellQuote(e.value)
  {
    hide ShellQuote;
    QuotedShape(e.value);
    KeyShape(e.key);
    var l := ExportLine(e);
    assert l == "export " + (e.key + "=" + ShellQuote(e.value));
    assert l[0] == 'e' && l[|l| - 1] == ShellQuote(e.value)[|ShellQuote(e.value)| - 1];
    TrimFixed(l);
  }

  lemma ReadExportLine(vars: Vars, e: Entry)
    requires ValidKey(e.key) && NewlineFree(e.value)
    ensures ReadLine(vars, ExportLine(e)) == vars[e.key := e.value]
  {
    hide ShellQuote;
    hide ExportLine;
    ExportLineShape(e);
    KeyShape(e.key);
    SplitOnceAt(e.key, '=', ShellQuote(e.value));
    QuoteThenParse(e.value);
  }

  lemma {:induction false} ReadExports(vars: Vars, entries: seq<Entry>)
    requires forall e :: e in entries ==> ValidKey(e.key) && NewlineFree(e.value)
    ensures ReadLines(vars, Lines(ExportLines(entries))) == Denotes(vars, entries)
    decreases |entries|
  {
    hide ExportLine;
    if entries != [] {
      var e := entries[0];
      ExportLineShape(e);
      LinesCons(ExportLine(e), ExportLines(entries[1..]));
      ReadExportLine(vars, e);
      ReadExports(vars[e.key := e.value], entries[1..]);
      var tail := Lines(ExportLines(entries[1..]));
      assert ([ExportLine(e)] + tail)[1..] == tail;
    }
  }

  lemma CommentShape(line: string)
    requires line in {"", Shebang(), Title(), EmptyNote()}
    ensures NewlineFree(line) && (line == [] || line[|line| - 1] != '\r')
    ensures forall vars :: ReadLine(vars, line) == vars
  {
    if line != "" {
      TrimFixed(line);
    }
  }

  /** A comment or an empty line in front changes nothing. */
  lemma SkipLine(line: string, rest: string)
    requires line in {"", Shebang(), Title(), EmptyNote()}
    ensures ReadScript(line + "\n" + rest) == ReadScript(rest)
  {
    hide ReadLine;
    hide Shebang;
    hide Title;
    hide EmptyNote;
    CommentShape(line);
    LinesCons(line, rest);
    assert ([line] + Lines(rest))[1..] == Lines(rest);
  }

  /** A script of valid keys and newline-free values reads back as the variables it was written for. */
  lemma ScriptReadsBack(entries: seq<Entry>)
    requires forall e :: e in entries ==> ValidKey(e.key) && NewlineFree(e.value)
    ensures ReadScript(Script(entries)) == Denotes(map[], entries)
  {
    hide ReadLine;
    hide Shebang;
    hide Title;
    hide EmptyNote;
    if entries == [] {
      SkipLine(EmptyNote(), "");
      assert EmptyNote() + "\n" + "" == EmptyNote() + "\n";
    } else {
      var third := "" + "\n" + ExportLines(entries);
      var second := Title() + "\n" + third;
      SkipLine(Shebang(), second);
      SkipLine(Title(), third);
      SkipLine("", ExportLines(entries));
      ReadExports(map[], entries);
    }
  }

  // ---------------------------------------------------------------- newlines

  lemma {:induction false} ParseKeepsOut(s: string, mode: Mode)
    requires NewlineFree(s)
    ensures NewlineFree(ParseValue(s, mode))
    decreases |s|
  {
    if s != [] {
      ParseKeepsOut(s[1..], Plain);
      ParseKeepsOut(s[1..], Single);
      ParseKeepsOut(s[1..], Double);
      if |s| > 1 {
        ParseKeepsOut(s[2..], Plain);
        ParseKeepsOut(s[2..], Double);
      }
    }
  }

  ghost predicate AllNewlineFree(vars: Vars) {
    forall k :: k in vars ==> NewlineFree(vars[k])
  }

  ghost predicate AllKeysValid(vars: Vars) {
    forall k :: k in vars ==> ValidKey(k)
  }

  lemma ReadLineShape(vars: Vars, line: string)
    requires NewlineFree(line) && AllNewlineFree(vars) && AllKeysValid(vars)
    ensures AllNewlineFree(ReadLine(vars, line)) && AllKeysValid(ReadLine(vars, line))
  {
    TrimKeepsOut(line, '\n');
    TrimKeepsOut(TrimStart(line), '\n');
    var l := Trim(line);
    if StartsWith(l, "export ") && SplitOnce(l[7..], '=').Some? {
      var value := SplitOnce(l[7..], '=').value.1;
      assert forall c :: c in value ==> c in l;
      ParseKeepsOut(value, Plain);
    }
  }

  lemma {:induction false} ReadLinesShape(vars: Vars, lines: seq<string>)
    requires AllNewlineFree(vars) && AllKeysValid(vars) && forall l :: l in lines ==> NewlineFree(l)
    ensures AllNewlineFree(ReadLines(vars, lines)) && AllKeysValid(ReadLines(vars, lines))
    decreases |lines|
  {
    hide ReadLine;
    if lines != [] {
      ReadLineShape(vars, lines[0]);
      ReadLinesShape(ReadLine(vars, lines[0]), lines[1..]);
    }
  }

  /** Whatever the file holds, the reader yields valid keys and newline-free values. */
  lemma ReadShape(content: string)
    ensures AllNewlineFree(ReadScript(content)) && AllKeysValid(ReadScript(content))
  {
    LinesHaveNoNewline(content);
    ReadLinesShape(map[], Lines(content));
  }

  /** `entries` lists `vars`, each key once. */
  ghost predicate Lists(entries: seq<Entry>, vars: Vars) {
    && Denotes(map[], entries) == vars
    && (forall e :: e in entries ==> e.key in vars && vars[e.key] == e.value)
  }

  /**
   * Writing variables and reading the file gives them back exactly when no value
   * contains a newline, in whatever order they are listed.
   */
  lemma RoundTripIffNewlineFree(entries: seq<Entry>, vars: Vars)
    requires Lists(entries, vars) && AllKeysValid(vars)
    ensures ReadScript(Script(entries)) == vars <==> AllNewlineFree(vars)
  {
    if AllNewlineFree(vars) {
      ScriptReadsBack(entries);
    } else {
      ReadShape(Script(entries));
    }
  }
}
