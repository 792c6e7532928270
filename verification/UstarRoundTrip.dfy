/**
 * Extracting what the archiver wrote rebuilds the archived tree.
 */
module UstarRoundTrip {
  import opened Common
  import opened UstarFields
  import opened UstarPath
  import opened UstarHeader
  import opened UstarArchive

  /** Names as a file system lists them, distinct in each directory, and files that fit a size field. */
  ghost predicate WellFormed(entries: seq<Entry>)
    decreases entries, 0
  {
    && (forall i, j :: 0 <= i < j < |entries| ==> entries[i].name != entries[j].name)
    && (forall i :: 0 <= i < |entries| ==> ValidName(entries[i].name))
    && (forall i :: 0 <= i < |entries| ==> WellFormedNode(entries[i].node))
  }

  ghost predicate WellFormedNode(node: Node)
    decreases node, 1
  {
    match node
    case SkippedNode => true
    case FileNode(_, data) => |data| < Pow8(12)
    case DirNode(_, entries) => WellFormed(entries)
  }

  /** The item a tree holds at a path, found by walking down from the root; links and special files hold none. */
  function Lookup(entries: seq<Entry>, p: Path): Option<Item>
    requires p != []
    decreases p, entries
  {
    if entries == [] then None
    else if entries[0].name != p[0] then Lookup(entries[1..], p)
    else
      match entries[0].node
      case SkippedNode => None
      case FileNode(mode, data) => if |p| == 1 then Some(FileItem(mode % 512, data)) else None
      case DirNode(mode, inside) => if |p| == 1 then Some(DirItem(mode % 512)) else Lookup(inside, p[1..])
  }

  // ---------------------------------------------------------------- one header

  lemma HeaderReads(path: Path, entryName: bytes, mode: nat, size: nat, typeflag: byte)
    requires path != [] && ValidPath(path) && size < Pow8(12) && typeflag != 0
    requires entryName == FileEntryName(path) || entryName == DirEntryName(path)
    requires HeaderFor(entryName, mode, size, typeflag).Ok?
    ensures var h := HeaderFor(entryName, mode, size, typeflag).value;
      && |h| == BLOCK && !AllZero(h)
      && ParseHeader(h) == Ok(Parsed(path, mode % 512, size, typeflag))
  {
    hide FileEntryName;
    hide DirEntryName;
    hide ValidateRelative;
    hide Header;
    hide ParseOctal;
    hide WriteOctal;
    var (name, prefix) := SplitTarPath(entryName).value;
    PathRoundTrip(path, entryName);
    HeaderLayout(name, prefix, ModeBits(mode), size, typeflag);
    StringFieldRoundTrip(name, NAME_WIDTH);
    StringFieldRoundTrip(prefix, PREFIX_WIDTH);
    Pow8Values();
    OctalRoundTrip(ModeBits(mode), 8);
    OctalRoundTrip(size, 12);
    assert Header(name, prefix, ModeBits(mode), size, typeflag)[156] != 0;
  }

  lemma Pow8Values()
    ensures Pow8(8) == 16777216 && Pow8(12) == 68719476736
  {
    assert Pow8(4) == 4096;
    assert Pow8(8) == 4096 * Pow8(4);
    assert Pow8(12) == 4096 * Pow8(8);
  }

  // ---------------------------------------------------------------- the destination after each node

  /** The destination after the node at `path` has been extracted. */
  ghost function AddNode(fs: FileSystem, path: Path, node: Node): FileSystem
    decreases node, 1
  {
    match node
    case SkippedNode => fs
    case FileNode(mode, data) => fs[path := FileItem(ModeBits(mode), data)]
    case DirNode(mode, entries) => AddEntries(fs[path := DirItem(ModeBits(mode))], path, entries)
  }

  ghost function AddEntries(fs: FileSystem, path: Path, entries: seq<Entry>): FileSystem
    decreases entries, 0
  {
    if entries == [] then fs
    else AddEntries(AddNode(fs, path + [entries[0].name], entries[0].node), path, entries[1..])
  }

  ghost predicate Same(fs: FileSystem, gs: FileSystem, q: Path) {
    (q in gs <==> q in fs) && (q in fs ==> gs[q] == fs[q])
  }

  /** Extracting a node touches only paths at or below it. */
  lemma {:induction false} NodeFrame(fs: FileSystem, path: Path, node: Node, q: Path)
    requires !(path <= q)
    ensures Same(fs, AddNode(fs, path, node), q)
    decreases node, 1
  {
    if node.DirNode? {
      assert forall n :: !(path + [n] <= q);
      EntriesFrame(fs[path := DirItem(ModeBits(node.mode))], path, node.entries, q);
    }
  }

  lemma {:induction false} EntriesFrame(fs: FileSystem, path: Path, entries: seq<Entry>, q: Path)
    requires forall i :: 0 <= i < |entries| ==> !(path + [entries[i].name] <= q)
    ensures Same(fs, AddEntries(fs, path, entries), q)
    decreases entries, 0
  {
    if entries != [] {
      NodeFrame(fs, path + [entries[0].name], entries[0].node, q);
      EntriesFrame(AddNode(fs, path + [entries[0].name], entries[0].node), path, entries[1..], q);
    }
  }

  /** Every directory on the way to `path`, and `path` itself, exists. */
  ghost predicate DirsExist(fs: FileSystem, path: Path) {
    forall k :: 1 <= k <= |path| ==> path[..k] in fs && fs[path[..k]].DirItem?
  }

  lemma {:induction false} MakeDirsExisting(fs: FileSystem, path: Path)
    requires DirsExist(fs, path)
    ensures MakeDirs(fs, path) == Ok(fs)
  {
    if path != [] {
      var init := path[..|path| - 1];
      assert forall k :: 1 <= k <= |init| ==> init[..k] == path[..k];
      MakeDirsExisting(fs, init);
      assert path[..|path|] == path;
    }
  }

  lemma SiblingsApart(path: Path, n: Name, m: Name, q: Path)
    requires n != m
    ensures !(path + [n] <= path + [m] + q)
  {
    assert (path + [n])[|path|] == n && (path + [m] + q)[|path|] == m;
  }

  lemma DirsStay(fs: FileSystem, path: Path, n: Name, node: Node)
    requires DirsExist(fs, path)
    ensures DirsExist(AddNode(fs, path + [n], node), path)
  {
    forall k | 1 <= k <= |path| ensures Same(fs, AddNode(fs, path + [n], node), path[..k]) {
      NodeFrame(fs, path + [n], node, path[..k]);
    }
  }

  // ---------------------------------------------------------------- extraction follows the tree

  /** Reading the bytes of one header and its data does what `ApplyEntry` says and leaves the rest. */
  lemma ExtractBlock(fs: FileSystem, h: bytes, data: bytes, p: Parsed, next: FileSystem, rest: bytes)
    requires |h| == BLOCK && !AllZero(h) && ParseHeader(h) == Ok(p) && p.path != [] && p.size == |data|
    requires ApplyEntry(fs, p.path, p.mode, p.typeflag, data) == Ok(next)
    ensures Extract(fs, h + data + Padding(|data|) + rest) == Extract(next, rest)
  {
    hide ParseHeader;
    hide ApplyEntry;
    hide AllZero;
    var archive := h + data + Padding(|data|) + rest;
    assert archive[..BLOCK] == h;
    assert archive[BLOCK..BLOCK + |data|] == data;
    assert archive[BLOCK + Padded(|data|)..] == rest;
  }

  lemma ExtractFile(fs: FileSystem, path: Path, mode: nat, data: bytes, rest: bytes)
    requires path != [] && ValidPath(path) && |data| < Pow8(12)
    requires DirsExist(fs, path[..|path| - 1]) && path !in fs
    requires HeaderFor(FileEntryName(path), mode, |data|, TYPE_FILE).Ok?
    ensures Extract(fs, HeaderFor(FileEntryName(path), mode, |data|, TYPE_FILE).value + data + Padding(|data|) + rest)
         == Extract(fs[path := FileItem(ModeBits(mode), data)], rest)
  {
    hide HeaderFor;
    hide ParseHeader;
    hide AllZero;
    hide Padding;
    hide Extract;
    HeaderReads(path, FileEntryName(path), mode, |data|, TYPE_FILE);
    MakeDirsExisting(fs, path[..|path| - 1]);
    ExtractBlock(fs, HeaderFor(FileEntryName(path), mode, |data|, TYPE_FILE).value, data,
                 Parsed(path, ModeBits(mode), |data|, TYPE_FILE), fs[path := FileItem(ModeBits(mode), data)], rest);
  }

  lemma ExtractDir(fs: FileSystem, path: Path, mode: nat, rest: bytes)
    requires path != [] && ValidPath(path)
    requires DirsExist(fs, path[..|path| - 1]) && path !in fs
    requires HeaderFor(DirEntryName(path), mode, 0, TYPE_DIR).Ok?
    ensures Extract(fs, HeaderFor(DirEntryName(path), mode, 0, TYPE_DIR).value + rest)
         == Extract(fs[path := DirItem(ModeBits(mode))], rest)
  {
    hide HeaderFor;
    hide ParseHeader;
    hide AllZero;
    hide Extract;
    var h := HeaderFor(DirEntryName(path), mode, 0, TYPE_DIR).value;
    Pow8Values();
    HeaderReads(path, DirEntryName(path), mode, 0, TYPE_DIR);
    MakeDirsExisting(fs, path[..|path| - 1]);
    assert fs[path := DirItem(NEW_DIR_MODE)][path := DirItem(ModeBits(mode))] == fs[path := DirItem(ModeBits(mode))];
    ExtractBlock(fs, h, [], Parsed(path, ModeBits(mode), 0, TYPE_DIR), fs[path := DirItem(ModeBits(mode))], rest);
    assert h + [] + Padding(0) + rest == h + rest;
  }

  lemma {:induction false} ExtractNode(fs: FileSystem, path: Path, node: Node, rest: bytes)
    requires path != [] && ValidPath(path) && WellFormedNode(node)
    requires DirsExist(fs, path[..|path| - 1]) && path !in fs
    requires forall q :: q in fs ==> !(path <= q)
    requires ArchiveNode(path, node).Ok?
    ensures Extract(fs, ArchiveNode(path, node).value + rest) == Extract(AddNode(fs, path, node), rest)
    decreases node, 1
  {
    hide HeaderFor;
    hide Extract;
    hide Padding;
    match node
    case SkippedNode =>
      assert [] + rest == rest;
    case FileNode(mode, data) =>
      ExtractFile(fs, path, mode, data, rest);
    case DirNode(mode, entries) =>
      var inside := ArchiveEntries(path, entries).value;
      var h := HeaderFor(DirEntryName(path), mode, 0, TYPE_DIR).value;
      var made := fs[path := DirItem(ModeBits(mode))];
      assert h + inside + rest == h + (inside + rest);
      ExtractDir(fs, path, mode, inside + rest);
      assert DirsExist(made, path) by {
        var init := path[..|path| - 1];
        forall k | 1 <= k <= |path| ensures path[..k] in made && made[path[..k]].DirItem? {
          assert k <= |init| ==> init[..k] == path[..k];
          assert path[..|path|] == path;
        }
      }
      ExtractEntries(made, path, entries, rest);
  }

  lemma {:induction false} ExtractEntries(fs: FileSystem, path: Path, entries: seq<Entry>, rest: bytes)
    requires ValidPath(path) && WellFormed(entries) && DirsExist(fs, path)
    requires forall q, i :: q in fs && 0 <= i < |entries| ==> !(path + [entries[i].name] <= q)
    requires ArchiveEntries(path, entries).Ok?
    ensures Extract(fs, ArchiveEntries(path, entries).value + rest) == Extract(AddEntries(fs, path, entries), rest)
    decreases entries, 0
  {
    hide ArchiveNode;
    hide Extract;
    if entries == [] {
      assert [] + rest == rest;
    } else {
      var p, node := path + [entries[0].name], entries[0].node;
      var first, others := ArchiveNode(p, node).value, ArchiveEntries(path, entries[1..]).value;
      assert first + others + rest == first + (others + rest);
      assert p[..|p| - 1] == path;
      assert p <= p;
      ExtractNode(fs, p, node, others + rest);
      DirsStay(fs, path, entries[0].name, node);
      var next := AddNode(fs, p, node);
      forall q, i | q in next && 0 <= i < |entries[1..]| ensures !(path + [entries[1..][i].name] <= q) {
        NewKeys(fs, p, node, q);
        if p <= q {
          SiblingsApart(path, entries[1..][i].name, entries[0].name, q[|p|..]);
          assert q == p + q[|p|..];
        } else {
          assert entries[1..][i] == entries[i + 1];
        }
      }
      ExtractEntries(next, path, entries[1..], rest);
    }
  }

  lemma NewKeys(fs: FileSystem, path: Path, node: Node, q: Path)
    requires q in AddNode(fs, path, node)
    ensures q in fs || path <= q
  {
    if !(path <= q) {
      NodeFrame(fs, path, node, q);
    }
  }

  // ---------------------------------------------------------------- the destination is the tree

  /** Below `path` the destination holds what the tree holds. */
  lemma {:induction false} AddedIsLookup(fs: FileSystem, path: Path, entries: seq<Entry>, q: Path)
    requires WellFormed(entries) && q != [] && path + q !in fs
    ensures var added := AddEntries(fs, path, entries);
      && (path + q in added <==> Lookup(entries, q).Some?)
      && (path + q in added ==> added[path + q] == Lookup(entries, q).value)
    decreases q, entries
  {
    if entries != [] {
      var n, node := entries[0].name, entries[0].node;
      var next := AddNode(fs, path + [n], node);
      assert path + q == path + [q[0]] + q[1..];
      if n != q[0] {
        SiblingsApart(path, n, q[0], q[1..]);
        NodeFrame(fs, path + [n], node, path + q);
        AddedIsLookup(next, path, entries[1..], q);
      } else {
        forall i | 0 <= i < |entries[1..]| ensures !(path + [entries[1..][i].name] <= path + q) {
          assert entries[1..][i] == entries[i + 1];
          SiblingsApart(path, entries[1..][i].name, q[0], q[1..]);
        }
        EntriesFrame(next, path, entries[1..], path + q);
        AddedNodeIsLookup(fs, path, node, q);
      }
    }
  }

  lemma {:induction false} AddedNodeIsLookup(fs: FileSystem, path: Path, node: Node, q: Path)
    requires WellFormedNode(node) && q != [] && path + q !in fs
    ensures var next := AddNode(fs, path + [q[0]], node);
      var found := Lookup([Entry(q[0], node)], q);
      && (path + q in next <==> found.Some?)
      && (path + q in next ==> next[path + q] == found.value)
    decreases q, node
  {
    var p := path + [q[0]];
    assert path + q == p + q[1..];
    match node
    case SkippedNode =>
    case FileNode(mode, data) =>
      assert |q| == 1 <==> path + q == p;
    case DirNode(mode, inside) =>
      var made := fs[p := DirItem(ModeBits(mode))];
      if |q| == 1 {
        assert path + q == p;
        assert forall i :: 0 <= i < |inside| ==> !(p + [inside[i].name] <= p);
        EntriesFrame(made, p, inside, p);
      } else {
        assert path + q != p;
        AddedIsLookup(made, p, inside, q[1..]);
      }
  }

  /**
   * Whenever archiving succeeds, extracting the bytes into an empty destination
   * succeeds and leaves exactly the archived tree: at every path the same file
   * contents, directories and low nine mode bits, and nothing else.
   */
  lemma ArchiveRoundTrip(entries: seq<Entry>)
    requires WellFormed(entries) && Archive(entries).Ok?
    ensures var extracted := Extract(map[], Archive(entries).value);
      && extracted.Ok?
      && [] !in extracted.value
      && forall p :: p != [] ==>
           && (p in extracted.value <==> Lookup(entries, p).Some?)
           && (p in extracted.value ==> extracted.value[p] == Lookup(entries, p).value)
  {
    hide ArchiveEntries;
    hide AddEntries;
    var added := AddEntries(map[], [], entries);
    ExtractEntries(map[], [], entries, Zeros(1024));
    assert Extract(added, Zeros(1024)) == Ok(added) by {
      assert AllZero(Zeros(1024)[..BLOCK]);
    }
    forall i | 0 <= i < |entries| ensures !([] + [entries[i].name] <= []) {}
    EntriesFrame(map[], [], entries, []);
    forall p: Path | p != []
      ensures p in added <==> Lookup(entries, p).Some?
      ensures p in added ==> added[p] == Lookup(entries, p).value
    {
      AddedIsLookup(map[], [], entries, p);
      assert [] + p == p;
    }
  }
}
