/**
 * What one archive entry does to the destination, and what a whole archive looks
 * like (guest-agent/src/files.rs).
 */
module UstarEntry {
  import opened Common
  import opened UstarFields
  import opened UstarPath
  import opened UstarHeader
  import opened UstarArchive

  /** The characters and codes of the format. */
  lemma Codes()
    ensures SLASH as int == '/' as int && DOT as int == '.' as int && BACKSLASH as int == '\\' as int
    ensures SPACE as int == ' ' as int && PLUS as int == '+' as int && DIGIT_0 as int == '0' as int
    ensures TYPE_FILE as int == '0' as int && TYPE_DIR as int == '5' as int
    ensures BLOCK == 512 && NAME_WIDTH == 100 && PREFIX_WIDTH == 155
    ensures NEW_DIR_MODE == 7 * 64 + 5 * 8 + 5 && DEFAULT_MODE == 6 * 64 + 4 * 8 + 4
  {
  }

  // ---------------------------------------------------------------- directories on the way

  /** Nothing on the way to `path`, `path` included, is a file. */
  ghost predicate Passable(fs: FileSystem, path: Path) {
    forall k :: 1 <= k <= |path| && path[..k] in fs ==> fs[path[..k]].DirItem?
  }

  lemma PassableParent(fs: FileSystem, path: Path)
    requires path != []
    ensures Passable(fs, path) <==>
              Passable(fs, path[..|path| - 1]) && (path in fs ==> fs[path].DirItem?)
  {
    var init := path[..|path| - 1];
    assert forall k :: 1 <= k <= |init| ==> init[..k] == path[..k];
    assert path[..|path|] == path;
  }

  /**
   * Directories are made where there are none, with mode 0755, as long as no file
   * is in the way; whatever there was stays.
   */
  lemma {:induction false} DirsMade(fs: FileSystem, path: Path)
    ensures MakeDirs(fs, path).Ok? <==> Passable(fs, path)
    ensures MakeDirs(fs, path).Ok? ==>
      var made := MakeDirs(fs, path).value;
      && (forall q :: q in fs ==> q in made && made[q] == fs[q])
      && (forall q :: q in made && q !in fs ==> q != [] && q <= path && made[q] == DirItem(493))
      && (forall k :: 1 <= k <= |path| ==> path[..k] in made)
  {
    if path != [] {
      var init := path[..|path| - 1];
      DirsMade(fs, init);
      PassableParent(fs, path);
      assert forall k :: 1 <= k <= |init| ==> init[..k] == path[..k];
      assert path[..|path|] == path;
      if MakeDirs(fs, init).Ok? {
        var parent := MakeDirs(fs, init).value;
        assert path in parent <==> path in fs;
      }
    }
  }

  // ---------------------------------------------------------------- one entry

  /** Everything but `path` and the directories on the way to it is as it was. */
  ghost predicate OnlyAdds(fs: FileSystem, gs: FileSystem, path: Path) {
    && (forall q :: q in fs && q != path ==> q in gs && gs[q] == fs[q])
    && (forall q :: q in gs && q !in fs && q != path ==> q != [] && q <= path && gs[q] == DirItem(493))
  }

  /**
   * An entry of type '5' is a directory with the nine mode bits of its header; one
   * of type '0' or NUL is a file with these bits and its data, which replaces a
   * file and is refused where there is a directory; every other type is refused.
   * The directories on the way are made, and are refused where there is a file.
   */
  lemma EntryApplied(fs: FileSystem, path: Path, mode: nat, typeflag: byte, data: bytes)
    requires path != []
    ensures var r := ApplyEntry(fs, path, mode, typeflag, data);
      var isDir, isFile := typeflag as int == '5' as int, typeflag as int == '0' as int || typeflag == 0;
      && (r.Ok? <==> (isDir && Passable(fs, path))
                     || (isFile && Passable(fs, path[..|path| - 1]) && (path in fs ==> fs[path].FileItem?)))
      && (r.Ok? ==> OnlyAdds(fs, r.value, path) && path in r.value
                    && r.value[path] == if isDir then DirItem(mode % 512) else FileItem(mode % 512, data))
      && (!isDir && !isFile ==> r.Err? && r.error.left == fs)
  {
    hide MakeDirs;
    hide Passable;
    var init := path[..|path| - 1];
    DirsMade(fs, path);
    DirsMade(fs, init);
    if MakeDirs(fs, init).Ok? {
      var made := MakeDirs(fs, init).value;
      assert path in made <==> path in fs;
    }
  }

  // ---------------------------------------------------------------- one header

  /** The path text of a header: the name, behind the prefix and a slash if there is one. */
  function PathText(header: bytes): bytes
    requires |header| == 512
  {
    var name, prefix := ParseStringField(header[..100]), ParseStringField(header[345..500]);
    if prefix == [] then name else prefix + [47] + name
  }

  /**
   * A header is accepted exactly when its path is relative, goes nowhere up and has
   * a component, and its size is a number; a mode that is none counts as 0644.
   */
  lemma HeaderMeans(header: bytes)
    requires |header| == 512
    ensures var text, r := PathText(header), ParseHeader(header);
      && (r.Ok? <==>
            && (text == [] || text[0] != 47) && [46, 46] !in Components(text) && Components(text) != []
            && ParseOctal(header[124..136]).Some?)
      && (r.Ok? ==>
            && r.value.path == Components(text) && Some(r.value.size) == ParseOctal(header[124..136])
            && r.value.typeflag == header[156]
            && (ParseOctal(header[100..108]).Some? ==> Some(r.value.mode) == ParseOctal(header[100..108]))
            && (ParseOctal(header[100..108]).None? ==> r.value.mode == 420))
  {
    hide ParseOctal;
    hide ParseStringField;
    assert header[0..100] == header[..100];
    assert Components([]) == [];
    hide Components;
  }

  /** A zero block ends extraction, whatever follows; bytes that end before one are refused. */
  lemma ExtractionEnds(fs: FileSystem, rest: bytes)
    ensures Extract(fs, Zeros(512) + rest) == Ok(fs)
    ensures |rest| < 512 ==> Extract(fs, rest).Err? && Extract(fs, rest).error.left == fs
  {
    assert (Zeros(512) + rest)[..512] == Zeros(512);
  }

  /** An entry whose data are not all there is refused, and leaves the destination alone. */
  lemma TruncatedEntry(fs: FileSystem, header: bytes, data: bytes)
    requires |header| == 512 && !AllZero(header) && ParseHeader(header).Ok? && |data| < ParseHeader(header).value.size
    ensures Extract(fs, header + data).Err? && Extract(fs, header + data).error.left == fs
  {
    hide ParseHeader;
    hide ApplyEntry;
    assert (header + data)[..512] == header;
  }

  // ---------------------------------------------------------------- a whole archive

  lemma BlockSize(entryName: bytes, mode: nat, size: nat, typeflag: byte)
    requires HeaderFor(entryName, mode, size, typeflag).Ok?
    ensures |HeaderFor(entryName, mode, size, typeflag).value| == 512
  {
    hide Header;
    var (name, prefix) := SplitTarPath(entryName).value;
    HeaderLayout(name, prefix, ModeBits(mode), size, typeflag);
  }

  lemma PaddedSize(data: bytes)
    ensures |data + Padding(|data|)| % 512 == 0 && |Padding(|data|)| < 512
    ensures forall i :: 0 <= i < |Padding(|data|)| ==> Padding(|data|)[i] == 0
  {
  }

  lemma {:induction false} EntriesAligned(path: Path, entries: seq<Entry>)
    ensures ArchiveEntries(path, entries).Ok? ==> |ArchiveEntries(path, entries).value| % 512 == 0
    decreases entries, 0
  {
    hide ArchiveNode;
    if entries != [] {
      NodeAligned(path + [entries[0].name], entries[0].node);
      EntriesAligned(path, entries[1..]);
    }
  }

  lemma {:induction false} NodeAligned(path: Path, node: Node)
    ensures ArchiveNode(path, node).Ok? ==> |ArchiveNode(path, node).value| % 512 == 0
    decreases node, 1
  {
    hide HeaderFor;
    hide ArchiveEntries;
    if ArchiveNode(path, node).Ok? {
      match node
      case SkippedNode =>
      case FileNode(mode, data) =>
        BlockSize(FileEntryName(path), mode, |data|, TYPE_FILE);
        PaddedSize(data);
      case DirNode(mode, entries) =>
        BlockSize(DirEntryName(path), mode, 0, TYPE_DIR);
        EntriesAligned(path, entries);
    }
  }

  /** An archive is a whole number of 512-byte blocks, the last two of them zeros. */
  lemma ArchiveShape(entries: seq<Entry>)
    requires Archive(entries).Ok?
    ensures var a := Archive(entries).value;
      && |a| % 512 == 0 && |a| >= 1024
      && forall i :: |a| - 1024 <= i < |a| ==> a[i] == 0
  {
    hide ArchiveEntries;
    EntriesAligned([], entries);
  }
}
