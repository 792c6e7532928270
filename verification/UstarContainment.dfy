/**
 * What extraction does for every archive, well formed or not: it writes only
 * below the destination, and it leaves a tree.
 */
module UstarContainment {
  import opened Common
  import opened Utf8
  import opened UstarFields
  import opened UstarPath
  import opened UstarHeader
  import opened UstarArchive

  /** A name that stays in its directory. */
  predicate SafeName(n: Name) {
    n != [] && n != [DOT] && n != [DOT, DOT] && SLASH !in n && 0 !in n
  }

  predicate SafePath(p: Path) {
    p != [] && forall i :: 0 <= i < |p| ==> SafeName(p[i])
  }

  // ---------------------------------------------------------------- the path of an entry

  lemma {:induction false} FirstSlashIsFirst(s: bytes)
    ensures SLASH !in s[..FirstSlash(s)]
  {
    if s != [] && s[0] != SLASH {
      FirstSlashIsFirst(s[1..]);
      assert s[..FirstSlash(s)] == [s[0]] + s[1..][..FirstSlash(s[1..])];
    }
  }

  lemma {:induction false} ComponentsAreNames(s: bytes)
    requires 0 !in s
    ensures forall c :: c in Components(s) ==> c != [] && c != [DOT] && SLASH !in c && 0 !in c
    decreases |s|
  {
    var i := FirstSlash(s);
    FirstSlashIsFirst(s);
    assert 0 !in s[..i];
    if i < |s| {
      assert 0 !in s[i + 1..];
      ComponentsAreNames(s[i + 1..]);
    }
  }

  lemma {:induction false} NoNulBefore(field: bytes)
    ensures 0 !in BeforeNul(field)
  {
    if field != [] && field[0] != 0 {
      NoNulBefore(field[1..]);
    }
  }

  lemma FieldHasNoNul(field: bytes)
    ensures 0 !in ParseStringField(field)
  {
    NoNulBefore(field);
    LossyAddsNoNul(BeforeNul(field));
  }

  lemma ParsedPathIsSafe(header: bytes)
    requires |header| == BLOCK && ParseHeader(header).Ok?
    ensures SafePath(ParseHeader(header).value.path)
  {
    hide Components;
    hide ParseOctal;
    FieldHasNoNul(header[0..100]);
    FieldHasNoNul(header[345..500]);
    var name := JoinFields(ParseStringField(header[0..100]), ParseStringField(header[345..500]));
    assert 0 !in name;
    ComponentsAreNames(name);
    var path := ParseHeader(header).value.path;
    assert path == Components(name);
    assert forall i :: 0 <= i < |path| ==> path[i] in path;
  }

  // ---------------------------------------------------------------- trees

  /** Everything lies in a directory that is there. */
  ghost predicate IsTree(fs: FileSystem) {
    forall p :: p in fs && |p| > 1 ==> p[..|p| - 1] in fs && fs[p[..|p| - 1]].DirItem?
  }

  /** From `fs` to `gs` nothing disappears, and whatever is new has a safe path. */
  ghost predicate GrowsSafely(fs: FileSystem, gs: FileSystem) {
    fs.Keys <= gs.Keys && forall p :: p in gs && p !in fs ==> SafePath(p)
  }

  lemma {:induction false} MakeDirsFacts(fs: FileSystem, path: Path)
    requires IsTree(fs) && (path == [] || SafePath(path))
    ensures var made := Destination(MakeDirs(fs, path));
      && IsTree(made) && GrowsSafely(fs, made)
      && (path != [] && MakeDirs(fs, path).Ok? ==> path in made && made[path].DirItem?)
      && forall p :: p in fs ==> made[p] == fs[p]
  {
    if path != [] {
      var init := path[..|path| - 1];
      MakeDirsFacts(fs, init);
      var parent := MakeDirs(fs, init);
      if parent.Ok? && path !in parent.value {
        PlaceKeepsTree(parent.value, path, DirItem(NEW_DIR_MODE));
      }
      hide IsTree;
      hide SafeName;
    }
  }

  lemma ApplyEntryFacts(fs: FileSystem, path: Path, mode: nat, typeflag: byte, data: bytes)
    requires IsTree(fs) && SafePath(path)
    ensures var r := ApplyEntry(fs, path, mode, typeflag, data);
      && IsTree(Destination(r)) && GrowsSafely(fs, Destination(r)) && (r.Ok? ==> path in Destination(r))
      && forall p :: p in fs && p != path ==> Destination(r)[p] == fs[p]
  {
    hide MakeDirs;
    hide SafePath;
    hide IsTree;
    ParentIsSafe(path);
    if typeflag == TYPE_DIR {
      MakeDirsFacts(fs, path);
      if MakeDirs(fs, path).Ok? {
        PlaceKeepsTree(MakeDirs(fs, path).value, path, DirItem(ModeBits(mode)));
      }
    } else {
      var parent := path[..|path| - 1];
      MakeDirsFacts(fs, parent);
      var made := MakeDirs(fs, parent);
      if made.Ok? && !(path in made.value && made.value[path].DirItem?) {
        PlaceKeepsTree(made.value, path, FileItem(ModeBits(mode), data));
      }
    }
  }

  lemma ParentIsSafe(path: Path)
    requires SafePath(path)
    ensures path != [] && (path[..|path| - 1] == [] || SafePath(path[..|path| - 1]))
  {
  }

  /** Placing an item keeps a tree when its parent is there and no directory turns into a file. */
  lemma PlaceKeepsTree(fs: FileSystem, path: Path, item: Item)
    requires IsTree(fs) && path != []
    requires |path| > 1 ==> path in fs || (path[..|path| - 1] in fs && fs[path[..|path| - 1]].DirItem?)
    requires item.DirItem? || path !in fs || !fs[path].DirItem?
    ensures IsTree(fs[path := item])
  {
  }

  /**
   * For every sequence of bytes, whether extraction succeeds or stops half-way,
   * everything it added lies below the destination under names without slashes,
   * dots-only names or NUL bytes, nothing was removed, and the destination is
   * still a tree.
   */
  lemma {:induction false} ExtractIsContained(fs: FileSystem, archive: bytes)
    requires IsTree(fs)
    ensures var left := Destination(Extract(fs, archive)); IsTree(left) && GrowsSafely(fs, left)
    decreases |archive|
  {
    hide ParseHeader;
    hide ApplyEntry;
    hide IsTree;
    hide AllZero;
    hide Padded;
    if |archive| >= BLOCK && !AllZero(archive[..BLOCK]) && ParseHeader(archive[..BLOCK]).Ok? {
      var h := ParseHeader(archive[..BLOCK]).value;
      if BLOCK + h.size <= |archive| {
        ParsedPathIsSafe(archive[..BLOCK]);
        var data := archive[BLOCK..BLOCK + h.size];
        ApplyEntryFacts(fs, h.path, h.mode, h.typeflag, data);
        var applied := ApplyEntry(fs, h.path, h.mode, h.typeflag, data);
        var step := BLOCK + Padded(h.size);
        if applied.Ok? && step <= |archive| {
          ExtractIsContained(applied.value, archive[step..]);
        }
      }
    }
  }
}
