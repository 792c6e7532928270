/**
 * Archiving a directory tree and extracting an archive (guest-agent/src/files.rs).
 */
module UstarArchive {
  import opened Common
  import opened UstarFields
  import opened UstarPath
  import opened UstarHeader

  /** A directory tree; a skipped node is a symbolic link or a special file. */
  datatype Node = FileNode(mode: nat, data: bytes) | DirNode(mode: nat, entries: seq<Entry>) | SkippedNode

  datatype Entry = Entry(name: Name, node: Node)

  /** What extraction leaves behind: every path below the destination with its item. */
  datatype Item = FileItem(mode: nat, data: bytes) | DirItem(mode: nat)

  type FileSystem = map<Path, Item>

  const NO_END := "tar archive ended before end marker"
  const TOO_SHORT := "tar entry extends past archive end"

  const NEW_DIR_MODE := 0x1ED   // 0o755
  const DEFAULT_MODE := 0x1A4   // 0o644

  /** The low nine mode bits. */
  function ModeBits(mode: nat): (bits: nat)
    ensures bits < 512 && (mode - bits) % 512 == 0
  {
    mode % 512
  }

  // ---------------------------------------------------------------- archiving

  function Padding(size: nat): bytes {
    Zeros(if size % BLOCK == 0 then 0 else BLOCK - size % BLOCK)
  }

  function HeaderFor(entryName: bytes, mode: nat, size: nat, typeflag: byte): Result<bytes, string> {
    match SplitTarPath(entryName)
    case Err(e) => Err(e)
    case Ok((name, prefix)) => Ok(Header(name, prefix, ModeBits(mode), size, typeflag))
  }

  /** The bytes of the entries of the directory at `path`, in listing order. */
  function ArchiveEntries(path: Path, entries: seq<Entry>): Result<bytes, string>
    decreases entries, 0
  {
    if entries == [] then Ok([])
    else
      var first := ArchiveNode(path + [entries[0].name], entries[0].node);
      var rest := ArchiveEntries(path, entries[1..]);
      if first.Err? then first else if rest.Err? then rest else Ok(first.value + rest.value)
  }

  /** The bytes of the node at `path`. */
  function ArchiveNode(path: Path, node: Node): Result<bytes, string>
    decreases node, 1
  {
    match node
    case SkippedNode => Ok([])
    case FileNode(mode, data) =>
      var header := HeaderFor(FileEntryName(path), mode, |data|, TYPE_FILE);
      if header.Err? then header else Ok(header.value + data + Padding(|data|))
    case DirNode(mode, entries) =>
      var header := HeaderFor(DirEntryName(path), mode, 0, TYPE_DIR);
      var inside := ArchiveEntries(path, entries);
      if header.Err? then header else if inside.Err? then inside else Ok(header.value + inside.value)
  }

  function Archive(entries: seq<Entry>): Result<bytes, string> {
    match ArchiveEntries([], entries)
    case Err(e) => Err(e)
    case Ok(b) => Ok(b + Zeros(1024))
  }

  /** The recursive walk that grows the output. */
  method AppendDirectoryEntries(path: Path, entries: seq<Entry>, out: bytes) returns (r: Result<bytes, string>)
    ensures r.Ok? <==> ArchiveEntries(path, entries).Ok?
    ensures r.Ok? ==> r.value == out + ArchiveEntries(path, entries).value
    decreases entries, 0
  {
    hide ArchiveNode;
    var result := out;
    for i := 0 to |entries|
      invariant ArchiveEntries(path, entries[..i]).Ok?
      invariant result == out + ArchiveEntries(path, entries[..i]).value
    {
      ArchiveSplit(path, entries, i);
      var appended := AppendEntry(path + [entries[i].name], entries[i].node, result);
      if appended.Err? {
        return appended;
      }
      result := appended.value;
    }
    assert entries[..|entries|] == entries;
    return Ok(result);
  }

  /** The body of the walk: a header, then the contents. */
  method AppendEntry(path: Path, node: Node, out: bytes) returns (r: Result<bytes, string>)
    ensures r.Ok? <==> ArchiveNode(path, node).Ok?
    ensures r.Ok? ==> r.value == out + ArchiveNode(path, node).value
    decreases node, 1
  {
    hide Header;
    hide SplitTarPath;
    hide FileEntryName;
    hide DirEntryName;
    hide Padding;
    match node {
      case SkippedNode =>
        return Ok(out);
      case DirNode(mode, inside) =>
        var header := AppendTarHeader(out, DirEntryName(path), ModeBits(mode), 0, TYPE_DIR);
        if header.Err? {
          return header;
        }
        r := AppendDirectoryEntries(path, inside, header.value);
      case FileNode(mode, data) =>
        var header := AppendTarHeader(out, FileEntryName(path), ModeBits(mode), |data|, TYPE_FILE);
        if header.Err? {
          return header;
        }
        var padded := PadTarEntry(header.value + data, |data|);
        return Ok(padded);
    }
  }

  method PadTarEntry(out: bytes, size: nat) returns (r: bytes)
    ensures r == out + Padding(size)
  {
    r := out;
    var remainder := size % BLOCK;
    if remainder != 0 {
      r := r + Repeat<byte>(BLOCK - remainder, 0);
    }
  }

  lemma {:induction false} ArchiveConcat(path: Path, a: seq<Entry>, b: seq<Entry>)
    ensures ArchiveEntries(path, a + b).Ok? <==> ArchiveEntries(path, a).Ok? && ArchiveEntries(path, b).Ok?
    ensures ArchiveEntries(path, a + b).Ok? ==>
              ArchiveEntries(path, a + b).value == ArchiveEntries(path, a).value + ArchiveEntries(path, b).value
  {
    hide HeaderFor;
    hide Padding;
    hide FileEntryName;
    hide DirEntryName;
    if a == [] {
      assert a + b == b;
    } else {
      ArchiveConcat(path, a[1..], b);
      assert (a + b)[1..] == a[1..] + b && (a + b)[0] == a[0];
    }
  }

  lemma ArchiveSplit(path: Path, entries: seq<Entry>, i: nat)
    requires i < |entries|
    ensures var node := ArchiveNode(path + [entries[i].name], entries[i].node);
      && (ArchiveEntries(path, entries[..i + 1]).Ok? <==> ArchiveEntries(path, entries[..i]).Ok? && node.Ok?)
      && (ArchiveEntries(path, entries).Ok? ==> ArchiveEntries(path, entries[..i + 1]).Ok?)
      && (ArchiveEntries(path, entries[..i + 1]).Ok? ==>
            ArchiveEntries(path, entries[..i + 1]).value == ArchiveEntries(path, entries[..i]).value + node.value)
  {
    hide ArchiveNode;
    ArchiveConcat(path, entries[..i], [entries[i]]);
    ArchiveConcat(path, entries[..i + 1], entries[i + 1..]);
    assert entries[..i + 1] == entries[..i] + [entries[i]];
    assert entries == entries[..i + 1] + entries[i + 1..];
    var one := [entries[i]];
    assert one[1..] == [];
    assert ArchiveEntries(path, one[1..]) == Ok([]);
  }

  // ---------------------------------------------------------------- extracting

  /** Why extraction stopped, and what it left in the destination. */
  datatype Failure = Failure(message: string, left: FileSystem)

  type Extracted = Result<FileSystem, Failure>

  /** The destination when extraction is over, one way or the other. */
  function Destination(r: Extracted): FileSystem {
    if r.Ok? then r.value else r.error.left
  }

  /** Creates the directories on the way to `path` and `path` itself. */
  function MakeDirs(fs: FileSystem, path: Path): Extracted {
    if path == [] then Ok(fs)
    else
      match MakeDirs(fs, path[..|path| - 1])
      case Err(e) => Err(e)
      case Ok(parent) =>
        if path !in parent then Ok(parent[path := DirItem(NEW_DIR_MODE)])
        else if parent[path].DirItem? then Ok(parent)
        else Err(Failure("cannot open directory", parent))
  }

  /** The effect of one entry on the destination. */
  function ApplyEntry(fs: FileSystem, path: Path, mode: nat, typeflag: byte, data: bytes): Extracted
    requires path != []
  {
    if typeflag == TYPE_DIR then
      match MakeDirs(fs, path)
      case Err(e) => Err(e)
      case Ok(made) => Ok(made[path := DirItem(ModeBits(mode))])
    else if typeflag == TYPE_FILE || typeflag == 0 then
      match MakeDirs(fs, path[..|path| - 1])
      case Err(e) => Err(e)
      case Ok(made) =>
        if path in made && made[path].DirItem? then Err(Failure("cannot write archive file", made))
        else Ok(made[path := FileItem(ModeBits(mode), data)])
    else Err(Failure("unsupported tar entry type", fs))
  }

  datatype Parsed = Parsed(path: Path, mode: nat, size: nat, typeflag: byte)

  function ParseHeader(header: bytes): (r: Result<Parsed, string>)
    requires |header| == BLOCK
    ensures r.Ok? ==> r.value.path != []
  {
    var name := JoinFields(ParseStringField(header[0..100]), ParseStringField(header[345..500]));
    if name == [] then Err("tar entry has an empty path")
    else
      match ValidateRelative(name)
      case Err(e) => Err(e)
      case Ok(path) =>
        var mode := match ParseOctal(header[100..108]) case None => DEFAULT_MODE case Some(m) => m;
        match ParseOctal(header[124..136])
        case None => Err("invalid tar entry size")
        case Some(size) => Ok(Parsed(path, mode, size, header[156]))
  }

  /** The size of an entry's data rounded up to whole blocks. */
  function Padded(size: nat): nat {
    size + |Padding(size)|
  }

  /** Extraction of the remaining bytes of an archive, which start at a header. */
  function Extract(fs: FileSystem, archive: bytes): Extracted
    decreases |archive|
  {
    if |archive| < BLOCK then Err(Failure(NO_END, fs))
    else if AllZero(archive[..BLOCK]) then Ok(fs)
    else
      match ParseHeader(archive[..BLOCK])
      case Err(e) => Err(Failure(e, fs))
      case Ok(h) =>
        if BLOCK + h.size > |archive| then Err(Failure(TOO_SHORT, fs))
        else
          match ApplyEntry(fs, h.path, h.mode, h.typeflag, archive[BLOCK..BLOCK + h.size])
          case Err(e) => Err(e)
          case Ok(next) =>
            var step := BLOCK + Padded(h.size);
            if step > |archive| then Err(Failure(NO_END, next)) else Extract(next, archive[step..])
  }

  lemma PaddedIsAligned(offset: nat, size: nat)
    requires offset % BLOCK == 0
    ensures Padded(size) % BLOCK == 0
    ensures offset + Padded(size) ==
              offset + size + if (offset + size) % BLOCK == 0 then 0 else BLOCK - (offset + size) % BLOCK
  {
    assert (offset + size) % BLOCK == size % BLOCK;
  }

  /** One turn of the loop, seen from the specification. */
  lemma ExtractStep(fs: FileSystem, archive: bytes, offset: nat, h: Parsed, next: FileSystem)
    requires offset + BLOCK <= |archive| && !AllZero(archive[offset..offset + BLOCK])
    requires ParseHeader(archive[offset..offset + BLOCK]) == Ok(h) && offset + BLOCK + h.size <= |archive|
    requires h.path != []
    requires ApplyEntry(fs, h.path, h.mode, h.typeflag, archive[offset + BLOCK..offset + BLOCK + h.size]) == Ok(next)
    ensures var end := offset + BLOCK + Padded(h.size);
      Extract(fs, archive[offset..]) ==
        if end > |archive| then Err(Failure(NO_END, next)) else Extract(next, archive[end..])
  {
    hide ParseHeader;
    hide ApplyEntry;
    hide AllZero;
    hide Padded;
    var rest := archive[offset..];
    assert rest[..BLOCK] == archive[offset..offset + BLOCK];
    assert rest[BLOCK..BLOCK + h.size] == archive[offset + BLOCK..offset + BLOCK + h.size];
    var step := BLOCK + Padded(h.size);
    assert step <= |rest| ==> rest[step..] == archive[offset + step..];
  }

  /** The loop stops early exactly as the specification does. */
  lemma ExtractStops(fs: FileSystem, archive: bytes, offset: nat)
    requires offset + BLOCK <= |archive|
    ensures var header := archive[offset..offset + BLOCK];
      && (AllZero(header) ==> Extract(fs, archive[offset..]) == Ok(fs))
      && (!AllZero(header) && ParseHeader(header).Err? ==>
            Extract(fs, archive[offset..]) == Err(Failure(ParseHeader(header).error, fs)))
      && (!AllZero(header) && ParseHeader(header).Ok? ==>
            var h := ParseHeader(header).value;
            if offset + BLOCK + h.size > |archive| then
              Extract(fs, archive[offset..]) == Err(Failure(TOO_SHORT, fs))
            else
              var applied := ApplyEntry(fs, h.path, h.mode, h.typeflag,
                  archive[offset + BLOCK..offset + BLOCK + h.size]);
              applied.Err? ==> Extract(fs, archive[offset..]) == applied)
  {
    hide ParseHeader;
    hide ApplyEntry;
    hide AllZero;
    hide Padded;
    var rest := archive[offset..];
    assert rest[..BLOCK] == archive[offset..offset + BLOCK];
    if !AllZero(rest[..BLOCK]) && ParseHeader(rest[..BLOCK]).Ok? {
      var h := ParseHeader(rest[..BLOCK]).value;
      if offset + BLOCK + h.size <= |archive| {
        assert rest[BLOCK..BLOCK + h.size] == archive[offset + BLOCK..offset + BLOCK + h.size];
      }
    }
  }

  /**
   * The extraction loop. Every read is in range, every header starts on a block
   * boundary, and the loop ends for every input.
   */
  method ExtractTarInto(fs: FileSystem, archive: bytes) returns (r: Extracted)
    ensures r == Extract(fs, archive)
  {
    hide ParseHeader;
    hide ApplyEntry;
    hide AllZero;
    hide Padded;
    var offset := 0;
    var current := fs;
    assert archive[0..] == archive;
    while offset + BLOCK <= |archive|
      invariant offset % BLOCK == 0
      invariant offset <= |archive| ==> Extract(fs, archive) == Extract(current, archive[offset..])
      invariant offset > |archive| ==> Extract(fs, archive) == Err(Failure(NO_END, current))
      decreases |archive| - offset
    {
      ExtractStops(current, archive, offset);
      var header := archive[offset..offset + BLOCK];
      ghost var start := offset;
      offset := offset + BLOCK;
      if AllZero(header) {
        return Ok(current);
      }
      var parsed := ParseHeader(header);
      if parsed.Err? {
        return Err(Failure(parsed.error, current));
      }
      var h := parsed.value;
      if offset + h.size > |archive| {
        return Err(Failure(TOO_SHORT, current));
      }
      var applied := ApplyEntry(current, h.path, h.mode, h.typeflag, archive[offset..offset + h.size]);
      if applied.Err? {
        return Err(applied.error);
      }
      ExtractStep(current, archive, start, h, applied.value);
      PaddedIsAligned(offset, h.size);
      current := applied.value;
      offset := offset + h.size;
      var remainder := offset % BLOCK;
      if remainder != 0 {
        offset := offset + (BLOCK - remainder);
      }
    }
    return Err(Failure(NO_END, current));
  }
}
