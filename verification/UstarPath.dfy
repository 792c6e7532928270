/**
 * Archive paths: joining names, splitting a long path over the ustar name and
 * prefix fields, and reading the components back (guest-agent/src/files.rs).
 */
module UstarPath {
  import opened Common
  import opened Utf8
  import opened UstarFields

  const NAME_WIDTH := 100
  const PREFIX_WIDTH := 155

  type Name = bytes

  type Path = seq<bytes>

  /** What a directory listing can contain, if it is text and has none of the backslashes the archiver rewrites. */
  predicate ValidName(n: Name) {
    n != [] && n != [DOT] && n != [DOT, DOT] && 0 !in n && SLASH !in n && BACKSLASH !in n && ValidUtf8(n)
  }

  predicate ValidPath(p: Path) {
    forall i :: 0 <= i < |p| ==> ValidName(p[i])
  }

  // ---------------------------------------------------------------- writing a path

  /** The names with slashes between them. */
  function Join(p: Path): bytes {
    if p == [] then [] else if |p| == 1 then p[0] else p[0] + [SLASH] + Join(p[1..])
  }

  function ReplaceBackslash(s: bytes): bytes {
    if s == [] then [] else [if s[0] == BACKSLASH then SLASH else s[0]] + ReplaceBackslash(s[1..])
  }

  function TrimEndSlash(s: bytes): bytes {
    if s != [] && s[|s| - 1] == SLASH then TrimEndSlash(s[..|s| - 1]) else s
  }

  /** The entry name of a regular file. */
  function FileEntryName(p: Path): bytes {
    ReplaceBackslash(Lossy(Join(p)))
  }

  /** The entry name of a directory, which ends in a slash. */
  function DirEntryName(p: Path): bytes {
    TrimEndSlash(FileEntryName(p)) + [SLASH]
  }

  function TrimDotSlash(s: bytes): bytes {
    if |s| >= 2 && s[0] == DOT && s[1] == SLASH then TrimDotSlash(s[2..]) else s
  }

  predicate SplitsAt(path: bytes, i: nat)
    requires i < |path|
  {
    path[i] == SLASH && i + 1 < |path| && i <= PREFIX_WIDTH && |path| - i - 1 <= NAME_WIDTH
  }

  /** The last slash before `n` that leaves a name and a prefix that fit. */
  function FindSplit(path: bytes, n: nat): (r: Option<nat>)
    requires n <= |path|
    ensures r.Some? ==> r.value < n && SplitsAt(path, r.value)
  {
    if n == 0 then None else if SplitsAt(path, n - 1) then Some(n - 1) else FindSplit(path, n - 1)
  }

  /** The name and prefix fields for a path. */
  function SplitTarPath(path: bytes): Result<(bytes, bytes), string> {
    var p := TrimDotSlash(path);
    if |p| <= NAME_WIDTH then Ok((p, []))
    else
      match FindSplit(p, |p|)
      case None => Err("tar path is too long")
      case Some(i) => Ok((p[i + 1..], p[..i]))
  }

  // ---------------------------------------------------------------- reading a path

  function JoinFields(name: bytes, prefix: bytes): bytes {
    if prefix == [] then name else prefix + [SLASH] + name
  }

  function FirstSlash(s: bytes): (i: nat)
    ensures i <= |s|
  {
    if s == [] || s[0] == SLASH then 0 else 1 + FirstSlash(s[1..])
  }

  /** The parts between slashes, empty ones and single dots dropped. */
  function Components(s: bytes): Path
    decreases |s|
  {
    var i := FirstSlash(s);
    var head := s[..i];
    var tail := if i < |s| then Components(s[i + 1..]) else [];
    if head == [] || head == [DOT] then tail else [head] + tail
  }

  function ValidateRelative(path: bytes): Result<Path, string> {
    if path != [] && path[0] == SLASH then Err("tar entry path is not safe")
    else if [DOT, DOT] in Components(path) then Err("tar entry path is not safe")
    else if Components(path) == [] then Err("tar entry has an empty path")
    else Ok(Components(path))
  }

  // ---------------------------------------------------------------- splitting is exact

  lemma {:induction false} FindSplitIsLast(path: bytes, n: nat)
    requires n <= |path|
    ensures match FindSplit(path, n)
      case None => forall i :: 0 <= i < n ==> !SplitsAt(path, i)
      case Some(k) => forall i :: k < i < n ==> !SplitsAt(path, i)
  {
    if n > 0 {
      FindSplitIsLast(path, n - 1);
    }
  }

  /**
   * Splitting succeeds exactly when the path, without leading "./", fits a name
   * field or some slash divides it into a fitting prefix and a fitting non-empty name.
   */
  lemma SplitSucceeds(path: bytes)
    ensures var p := TrimDotSlash(path);
      SplitTarPath(path).Ok? <==>
        |p| <= 100 || exists i :: 0 <= i < |p| && p[i] == 47 && i <= 155 && 1 <= |p| - i - 1 <= 100
  {
    var p := TrimDotSlash(path);
    FindSplitIsLast(p, |p|);
    if i :| 0 <= i < |p| && p[i] == 47 && i <= 155 && 1 <= |p| - i - 1 <= 100 {
      assert SplitsAt(p, i);
    }
  }

  /** Trimming takes off every leading "./" and nothing else. */
  lemma {:induction false} TrimmedPath(path: bytes)
    ensures var p := TrimDotSlash(path);
      && !([46, 47] <= p)
      && exists k: nat :: 2 * k + |p| == |path| && path[2 * k..] == p
                          && forall i :: 0 <= i < 2 * k ==> path[i] == if i % 2 == 0 then 46 else 47
  {
    if |path| >= 2 && path[0] == DOT && path[1] == SLASH {
      var rest := path[2..];
      TrimmedPath(rest);
      var p := TrimDotSlash(rest);
      var k: nat :| 2 * k + |p| == |rest| && rest[2 * k..] == p
                    && forall i :: 0 <= i < 2 * k ==> rest[i] == if i % 2 == 0 then 46 else 47;
      assert path[2 * (k + 1)..] == p;
      assert forall i :: 2 <= i < 2 * (k + 1) ==> path[i] == rest[i - 2];
      assert 2 * (k + 1) + |p| == |path|;
    } else {
      assert path[2 * 0..] == path;
      if [46, 47] <= path {
        assert path[0] == [46, 47][0] && path[1] == [46, 47][1];
      }
    }
  }

  /** Of the slashes that would do, the last one divides a long path. */
  lemma SplitAtLast(path: bytes, i: nat)
    requires TrimDotSlash(path) == path && |path| > 100 && SplitTarPath(path).Ok?
    requires i < |path| && path[i] == 47 && i <= 155 && 1 <= |path| - i - 1 <= 100
    ensures |SplitTarPath(path).value.1| >= i
  {
    FindSplitIsLast(path, |path|);
    assert SplitsAt(path, i);
  }

  /** Backslashes, and only they, become slashes. */
  lemma {:induction false} BackslashesReplaced(s: bytes)
    ensures |ReplaceBackslash(s)| == |s|
    ensures forall i :: 0 <= i < |s| ==> ReplaceBackslash(s)[i] == if s[i] == 92 then 47 else s[i]
  {
    if s != [] {
      BackslashesReplaced(s[1..]);
    }
  }

  lemma {:induction false} FirstSlashBefore(a: bytes, b: bytes)
    ensures FirstSlash(a + [47] + b) == FirstSlash(a)
    ensures FirstSlash(a) < |a| ==> a[FirstSlash(a)] == 47
    ensures FirstSlash(a) == |a| ==> SLASH !in a
  {
    if a == [] {
      assert a + [47] + b == [47] + b;
    } else if a[0] != SLASH {
      FirstSlashBefore(a[1..], b);
      assert (a + [47] + b)[1..] == a[1..] + [47] + b;
    }
  }

  lemma ComponentsStep(s: bytes, i: nat)
    requires i == FirstSlash(s) && i < |s|
    ensures Components(s) == (if s[..i] == [] || s[..i] == [DOT] then [] else [s[..i]]) + Components(s[i + 1..])
  {
  }

  lemma ComponentsEnd(s: bytes)
    requires FirstSlash(s) == |s|
    ensures Components(s) == if s == [] || s == [DOT] then [] else [s]
  {
    assert s[..|s|] == s;
  }

  /**
   * What a path means: one without slashes is one component, or none if it is empty
   * or a dot; and a slash joins the components of both sides.
   */
  lemma {:induction false} ComponentsOf(a: bytes, b: bytes)
    ensures 47 !in a ==> Components(a) == if a == [] || a == [46] then [] else [a]
    ensures Components(a + [47] + b) == Components(a) + Components(b)
    decreases |a|
  {
    hide Components;
    FirstSlashBefore(a, b);
    var i, s := FirstSlash(a), a + [47] + b;
    ComponentsStep(s, i);
    if i == |a| {
      assert s[..i] == a && s[i + 1..] == b;
      ComponentsEnd(a);
    } else {
      ComponentsStep(a, i);
      ComponentsOf(a[i + 1..], b);
      assert s[..i] == a[..i] && s[i + 1..] == a[i + 1..] + [47] + b;
    }
  }

  lemma SplitAtSlash(path: bytes, i: nat)
    requires i < |path| && path[i] == SLASH && i > 0
    ensures JoinFields(path[i + 1..], path[..i]) == path
  {
    assert path == path[..i] + [SLASH] + path[i + 1..];
  }

  /** The two fields fit, and joining them gives the path back. */
  lemma SplitThenJoin(path: bytes)
    requires path != [] && path[0] != SLASH && TrimDotSlash(path) == path && SplitTarPath(path).Ok?
    ensures var (name, prefix) := SplitTarPath(path).value;
      && name != [] && |name| <= NAME_WIDTH && |prefix| <= PREFIX_WIDTH
      && JoinFields(name, prefix) == path
      && (0 !in path ==> 0 !in name && 0 !in prefix)
      && (ValidUtf8(path) ==> ValidUtf8(name) && ValidUtf8(prefix))
  {
    hide ValidUtf8;
    if |path| > NAME_WIDTH {
      var i := FindSplit(path, |path|).value;
      SplitAtSlash(path, i);
      if ValidUtf8(path) {
        ValidSplit(path, i);
      }
    } else {
      AsciiIsValid([]);
    }
  }

  // ---------------------------------------------------------------- joining and reading back

  lemma {:induction false} FirstSlashOfName(n: bytes, rest: bytes)
    requires SLASH !in n && (rest == [] || rest[0] == SLASH)
    ensures FirstSlash(n + rest) == |n|
  {
    if n == [] {
      assert n + rest == rest;
    } else {
      FirstSlashOfName(n[1..], rest);
      assert (n + rest)[1..] == n[1..] + rest;
    }
  }

  lemma ComponentsCons(n: Name, rest: bytes)
    requires ValidName(n)
    ensures Components(n) == [n]
    ensures Components(n + [SLASH] + rest) == [n] + Components(rest)
  {
    FirstSlashOfName(n, []);
    assert n + [] == n;
    var s := n + [SLASH] + rest;
    FirstSlashOfName(n, [SLASH] + rest);
    assert s == n + ([SLASH] + rest);
    assert s[..|n|] == n && s[|n| + 1..] == rest;
  }

  /** Reading the components of a joined path gives the names back, with or without a trailing slash. */
  lemma {:induction false} JoinThenComponents(p: Path)
    requires p != [] && ValidPath(p)
    ensures Components(Join(p)) == p && Components(Join(p) + [SLASH]) == p
  {
    if |p| == 1 {
      ComponentsCons(p[0], []);
      assert p[0] + [SLASH] + [] == p[0] + [SLASH];
      assert p == [p[0]];
    } else {
      JoinThenComponents(p[1..]);
      ComponentsCons(p[0], Join(p[1..]));
      ComponentsCons(p[0], Join(p[1..]) + [SLASH]);
      assert Join(p) + [SLASH] == p[0] + [SLASH] + (Join(p[1..]) + [SLASH]);
      assert p == [p[0]] + p[1..];
    }
  }

  lemma {:induction false} JoinBytes(p: Path)
    requires p != [] && ValidPath(p)
    ensures var s := Join(p);
      && s != [] && s[0] == p[0][0] && s[0] != SLASH && s[|s| - 1] != SLASH && 0 !in s && BACKSLASH !in s
  {
    if |p| > 1 {
      JoinBytes(p[1..]);
    }
  }

  lemma {:induction false} JoinIsText(p: Path)
    requires p != [] && ValidPath(p)
    ensures ValidUtf8(Join(p)) && ValidUtf8(Join(p) + [SLASH])
  {
    AsciiIsValid([SLASH]);
    if |p| > 1 {
      JoinIsText(p[1..]);
      ValidConcat(p[0], [SLASH]);
      ValidConcat(p[0] + [SLASH], Join(p[1..]));
    }
    ValidConcat(Join(p), [SLASH]);
  }

  lemma {:induction false} JoinStart(p: Path)
    requires p != [] && ValidPath(p)
    ensures TrimDotSlash(Join(p)) == Join(p) && TrimDotSlash(Join(p) + [SLASH]) == Join(p) + [SLASH]
  {
    var s, n := Join(p), p[0];
    JoinBytes(p);
    assert n != [DOT];
    if n[0] == DOT {
      assert |n| > 1 by {
        assert n == [n[0]] || |n| > 1;
      }
      assert s[1] == n[1] && n[1] in n;
    }
  }

  lemma {:induction false} NoBackslash(s: bytes)
    requires BACKSLASH !in s
    ensures ReplaceBackslash(s) == s
  {
    if s != [] {
      NoBackslash(s[1..]);
      assert s == [s[0]] + s[1..];
    }
  }

  /** Entry names of well-named files and directories are their joined names. */
  lemma EntryNames(p: Path)
    requires p != [] && ValidPath(p)
    ensures FileEntryName(p) == Join(p) && DirEntryName(p) == Join(p) + [SLASH]
  {
    JoinBytes(p);
    JoinIsText(p);
    LossyKeepsValid(Join(p));
    NoBackslash(Join(p));
  }

  /** What the reader makes of the fields the writer filled for `entryName`. */
  lemma PathRoundTrip(p: Path, entryName: bytes)
    requires p != [] && ValidPath(p)
    requires entryName == FileEntryName(p) || entryName == DirEntryName(p)
    requires SplitTarPath(entryName).Ok?
    ensures var (name, prefix) := SplitTarPath(entryName).value;
      && name != [] && |name| <= NAME_WIDTH && |prefix| <= PREFIX_WIDTH && 0 !in name && 0 !in prefix
      && ValidUtf8(name) && ValidUtf8(prefix)
      && JoinFields(name, prefix) != []
      && ValidateRelative(JoinFields(name, prefix)) == Ok(p)
  {
    EntryNames(p);
    JoinBytes(p);
    JoinIsText(p);
    JoinStart(p);
    JoinThenComponents(p);
    SplitThenJoin(entryName);
    assert [DOT, DOT] !in p;
  }
}
