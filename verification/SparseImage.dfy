/**
 * Sparse disk images (celesto-core/src/disk.rs): copying and decoding with
 * holes gives the bytes a plain copy would give.
 */
module SparseImage {
  import opened Common

  /** A file opened for writing: its bytes and the position of the next write. */
  class OutputFile {
    var data: bytes
    var pos: nat

    constructor ()
      ensures data == [] && pos == 0
    {
      data, pos := [], 0;
    }

    /** Bytes behind the end read as zeros once something is written after them. */
    method WriteAll(chunk: bytes)
      modifies this
      ensures data == Overwrite(old(data), old(pos), chunk) && pos == old(pos) + |chunk|
    {
      data := Overwrite(data, pos, chunk);
      pos := pos + |chunk|;
    }

    method SeekForward(n: nat)
      modifies this
      ensures data == old(data) && pos == old(pos) + n
    {
      pos := pos + n;
    }

    method SeekStart()
      modifies this
      ensures data == old(data) && pos == 0
    {
      pos := 0;
    }

    /** A reflink shares the blocks of `source`; one that is not supported may leave anything behind. */
    method CloneFrom(source: bytes, supported: bool, left: bytes) returns (ok: bool)
      modifies this
      ensures ok == supported && data == if ok then source else left
    {
      data := if supported then source else left;
      return supported;
    }

    method SetLen(n: nat)
      modifies this
      ensures data == Resize(old(data), n) && pos == old(pos)
    {
      data := Resize(data, n);
    }
  }

  /** A file cut or extended to a length: what is beyond the old end is zeros. */
  function Resize(s: bytes, n: nat): (r: bytes)
    ensures |r| == n && forall i :: 0 <= i < n ==> r[i] == if i < |s| then s[i] else 0
  {
    if n <= |s| then s[..n] else s + Repeat<byte>(n - |s|, 0)
  }

  /** A file after a write at a position: the chunk is there, a gap before it is zeros, the rest is as it was. */
  function Overwrite(s: bytes, at: nat, chunk: bytes): (r: bytes)
    ensures |r| == (if |s| < at + |chunk| then at + |chunk| else |s|)
    ensures forall i :: 0 <= i < |r| ==>
      r[i] == if at <= i < at + |chunk| then chunk[i - at] else if i < |s| then s[i] else 0
  {
    var padded := if at <= |s| then s else Resize(s, at);
    padded[..at] + chunk + (if at + |chunk| < |padded| then padded[at + |chunk|..] else [])
  }

  /** The file holds `image` as far as it goes, and what is missing is zeros. */
  ghost predicate Holds(data: bytes, image: bytes) {
    |data| <= |image| && Resize(data, |image|) == image
  }

  method WriteSparseChunk(target: OutputFile, chunk: bytes, ghost image: bytes)
    requires target.pos == |image| && Holds(target.data, image)
    modifies target
    ensures target.pos == |image + chunk| && Holds(target.data, image + chunk)
  {
    if AllZero(chunk) {
      HoleKeeps(target.data, image, chunk);
      target.SeekForward(|chunk|);
    } else {
      WriteKeeps(target.data, image, chunk);
      target.WriteAll(chunk);
    }
  }

  lemma HoleKeeps(data: bytes, image: bytes, chunk: bytes)
    requires Holds(data, image) && AllZero(chunk)
    ensures Holds(data, image + chunk)
  {
    assert Resize(data, |image + chunk|) == image + chunk;
  }

  lemma WriteKeeps(data: bytes, image: bytes, chunk: bytes)
    requires Holds(data, image)
    ensures Holds(Overwrite(data, |image|, chunk), image + chunk)
  {
    var padded := if |image| <= |data| then data else Resize(data, |image|);
    assert padded == image;
    assert Overwrite(data, |image|, chunk) == image + chunk;
  }

  /** Cutting or extending the file gives what cutting or extending the image gives. */
  lemma SetLenOfHeld(data: bytes, image: bytes, size: nat)
    requires Holds(data, image)
    ensures Resize(data, size) == Resize(image, size)
  {
    var full := Resize(data, |image|);
    assert forall i :: 0 <= i < |image| ==> full[i] == image[i];
  }

  /** The bytes that successive reads deliver; an empty read is the end. */
  function Delivered(chunks: seq<bytes>): bytes {
    if chunks == [] || chunks[0] == [] then [] else chunks[0] + Delivered(chunks[1..])
  }

  /**
   * Reads that deliver something, up to an empty one, deliver their concatenation;
   * what comes later does not matter.
   */
  lemma {:induction false} DeliveredIsAll(chunks: seq<bytes>, later: seq<bytes>)
    requires forall i :: 0 <= i < |chunks| ==> chunks[i] != []
    ensures Delivered(chunks + [[]] + later) == Flatten(chunks) && Delivered(chunks) == Flatten(chunks)
  {
    var all := chunks + [[]] + later;
    if chunks == [] {
      assert all[0] == [];
    } else {
      DeliveredIsAll(chunks[1..], later);
      assert all[0] == chunks[0] && all[1..] == chunks[1..] + [[]] + later;
    }
  }

  /** One more read that delivers something. */
  lemma DeliveredMore(chunks: seq<bytes>, i: nat, image: bytes)
    requires i < |chunks| && chunks[i] != [] && Delivered(chunks) == image + Delivered(chunks[i..])
    ensures Delivered(chunks) == image + chunks[i] + Delivered(chunks[i + 1..])
  {
    assert chunks[i..][1..] == chunks[i + 1..];
  }

  /**
   * Copying with reflink or, when that fails, read by read over whatever the
   * failed clone left; `size` is the length of the source when it was opened. For
   * every split into chunks the target ends up with the bytes read, cut or
   * zero-extended to that length; so either way it is byte-equal to a source that
   * did not change meanwhile.
   */
  method CloneOrSparseCopy(target: OutputFile, source: bytes, chunks: seq<bytes>, size: nat, supported: bool,
                           left: bytes)
    returns (how: string)
    modifies target
    ensures how == if supported then "reflink" else "sparse"
    ensures target.data == if supported then source else Resize(Delivered(chunks), size)
    ensures source == Delivered(chunks) && size == |source| ==> target.data == source
  {
    var cloned := target.CloneFrom(source, supported, left);
    if cloned {
      return "reflink";
    }
    target.SetLen(0);
    target.SeekStart();
    ghost var image: bytes := [];
    var i := 0;
    assert chunks[0..] == chunks;
    while i < |chunks| && chunks[i] != []
      invariant i <= |chunks| && Delivered(chunks) == image + Delivered(chunks[i..])
      invariant target.pos == |image| && Holds(target.data, image)
    {
      DeliveredMore(chunks, i, image);
      WriteSparseChunk(target, chunks[i], image);
      image := image + chunks[i];
      i := i + 1;
    }
    assert Delivered(chunks) == image;
    SetLenOfHeld(target.data, image, size);
    target.SetLen(size);
    return "sparse";
  }

  datatype DecodeError = BadChunkSize | TooLarge

  /**
   * Decoding with a budget: it succeeds exactly when the length of the decoded
   * image fits 64 bits and is within the limit, and then the target is byte-equal
   * to it; otherwise it stops before writing beyond the limit.
   */
  method DecompressBounded(target: OutputFile, chunkSize: nat, chunks: seq<bytes>, limit: Option<nat>)
    returns (r: Result<(), DecodeError>)
    requires target.data == [] && target.pos == 0
    modifies target
    ensures r.Ok? <==>
      chunkSize > 0 && |Delivered(chunks)| < U64_LIMIT && (limit.Some? ==> |Delivered(chunks)| <= limit.value)
    ensures r.Err? ==> r.error == if chunkSize == 0 then BadChunkSize else TooLarge
    ensures r.Ok? ==> target.data == Delivered(chunks)
    ensures limit.Some? ==> |target.data| <= limit.value
  {
    if chunkSize == 0 {
      return Err(BadChunkSize);
    }
    var size := 0;
    ghost var image: bytes := [];
    var i := 0;
    assert chunks[0..] == chunks;
    while i < |chunks| && chunks[i] != []
      invariant i <= |chunks| && Delivered(chunks) == image + Delivered(chunks[i..]) && size == |image|
      invariant target.pos == |image| && Holds(target.data, image)
      invariant size < U64_LIMIT && (limit.Some? ==> size <= limit.value)
    {
      DeliveredMore(chunks, i, image);
      size := size + |chunks[i]|;
      if size >= U64_LIMIT {
        return Err(TooLarge);
      }
      if limit.Some? && size > limit.value {
        return Err(TooLarge);
      }
      WriteSparseChunk(target, chunks[i], image);
      image := image + chunks[i];
      i := i + 1;
    }
    assert Delivered(chunks) == image;
    SetLenOfHeld(target.data, image, size);
    target.SetLen(size);
    return Ok(());
  }
}
