/**
 * Reading a response from the Firecracker control socket
 * (celesto-core/src/firecracker.rs): headers up to the blank line, then as many
 * body bytes as Content-Length says, as in section 6.3 of RFC 9112.
 */
module HttpResponse {
  import opened Common
  import opened Text

  const READ_SIZE := 4096
  const MAX_HEADER_BYTES := 64 * 1024
  const MAX_RESPONSE_BYTES := 1024 * 1024

  datatype HttpError = Malformed | HeadersTooLarge | MissingStatus | InvalidStatus | InvalidContentLength
                     | BodyTooLarge | UnexpectedEof

  // ---------------------------------------------------------------- header text

  function DigitsValue(s: string): nat
    requires forall i :: 0 <= i < |s| ==> IsAsciiDigit(s[i])
  {
    if s == [] then 0
    else
      assert IsAsciiDigit(s[|s| - 1]);
      10 * DigitsValue(s[..|s| - 1]) + (s[|s| - 1] as int - '0' as int)
  }

  /** An unsigned decimal number not above `max`, with an optional plus sign. */
  function ParseNumber(s: string, max: nat): Option<nat> {
    var digits := if |s| > 1 && s[0] == '+' then s[1..] else s;
    if digits == [] || exists i :: 0 <= i < |digits| && !IsAsciiDigit(digits[i]) then None
    else if DigitsValue(digits) > max then None
    else Some(DigitsValue(digits))
  }

  function WordEnd(s: string): (i: nat)
    ensures i <= |s|
  {
    if s == [] || IsWhitespace(s[0]) then 0 else 1 + WordEnd(s[1..])
  }

  /** The words between white space. */
  function Words(s: string): seq<string>
    decreases |s|
  {
    if s == [] then []
    else if IsWhitespace(s[0]) then Words(s[1..])
    else [s[..WordEnd(s)]] + Words(s[WordEnd(s)..])
  }

  function LowerAscii(s: string): string {
    if s == [] then []
    else [if 'A' <= s[0] <= 'Z' then (s[0] as int + 32) as char else s[0]] + LowerAscii(s[1..])
  }

  const MAX_USIZE := 0xFFFF_FFFF_FFFF_FFFF

  /** The first Content-Length among the header lines. */
  function ParseContentLength(lines: seq<string>): Result<Option<nat>, HttpError> {
    if lines == [] then Ok(None)
    else
      match SplitOnce(lines[0], ':')
      case None => ParseContentLength(lines[1..])
      case Some((name, value)) =>
        if LowerAscii(name) != "content-length" then ParseContentLength(lines[1..])
        else
          match ParseNumber(Trim(value), MAX_USIZE)
          case None => Err(InvalidContentLength)
          case Some(n) => Ok(Some(n))
  }

  /** The status and the announced length. */
  function ParseHead(headers: string): Result<(nat, Option<nat>), HttpError> {
    var lines := Lines(headers);
    if lines == [] || |Words(lines[0])| < 2 then Err(MissingStatus)
    else
      match ParseNumber(Words(lines[0])[1], 0xFFFF)
      case None => Err(InvalidStatus)
      case Some(status) =>
        match ParseContentLength(lines[1..])
        case Err(e) => Err(e)
        case Ok(length) =>
          if length.Some? && length.value > MAX_RESPONSE_BYTES then Err(BodyTooLarge) else Ok((status, length))
  }

  // ---------------------------------------------------------------- the blank line

  predicate MarkerAt(s: bytes, i: nat)
    requires i + 4 <= |s|
  {
    s[i] == 13 && s[i + 1] == 10 && s[i + 2] == 13 && s[i + 3] == 10
  }

  /** The position of the first blank line at or after `i`. */
  function FindMarker(s: bytes, i: nat): (r: Option<nat>)
    ensures r.Some? ==> i <= r.value && r.value + 4 <= |s| && MarkerAt(s, r.value)
    decreases |s| - i
  {
    if i + 4 > |s| then None else if MarkerAt(s, i) then Some(i) else FindMarker(s, i + 1)
  }

  /** Within what has been read so far the blank line is found exactly when all of it has been read. */
  lemma {:induction false} MarkerInPrefix(s: bytes, n: nat, i: nat)
    requires n <= |s|
    ensures FindMarker(s[..n], i) ==
              if FindMarker(s, i).Some? && FindMarker(s, i).value + 4 <= n then FindMarker(s, i) else None
    decreases |s| - i
  {
    if i + 4 <= |s| {
      if i + 4 <= n {
        assert MarkerAt(s[..n], i) <==> MarkerAt(s, i);
        if !MarkerAt(s, i) {
          MarkerInPrefix(s, n, i + 1);
        }
      }
    }
  }

  // ---------------------------------------------------------------- reading

  /** The next read asks for at most 4096 bytes and gets at least one while there are any. */
  function ReadLength(sizes: seq<nat>, available: nat): (n: nat)
    ensures n <= available && n <= READ_SIZE && (available > 0 ==> n > 0)
  {
    var asked := if sizes == [] || sizes[0] > READ_SIZE then READ_SIZE else if sizes[0] == 0 then 1 else sizes[0];
    if asked <= available then asked else available
  }

  /** How many bytes have been read when the blank line is complete. */
  function ReadHead(s: bytes, sizes: seq<nat>, pos: nat): (r: Result<nat, HttpError>)
    requires pos <= |s|
    ensures r.Ok? ==> r.value <= |s| && FindMarker(s[..r.value], 0).Some?
    decreases |s| - pos
  {
    if FindMarker(s[..pos], 0).Some? then Ok(pos)
    else
      var n := ReadLength(sizes, |s| - pos);
      if n == 0 then Err(Malformed)
      else if pos + n > MAX_HEADER_BYTES then Err(HeadersTooLarge)
      else ReadHead(s, if sizes == [] then [] else sizes[1..], pos + n)
  }

  /** What a reader that sees the whole stream at once would answer. */
  function WholeResponse(s: bytes, decode: bytes -> string): Result<(nat, Option<bytes>), HttpError>
    requires FindMarker(s, 0).Some?
  {
    var split := FindMarker(s, 0).value;
    match ParseHead(decode(s[..split]))
    case Err(e) => Err(e)
    case Ok((status, length)) =>
      if length.None? then Ok((status, None))
      else if |s| < split + 4 + length.value then Err(UnexpectedEof)
      else Ok((status, Some(s[split + 4..split + 4 + length.value])))
  }

  /**
   * The reading loops. `sizes` are the lengths of the successive reads and
   * `decode` the lossy text decoding. Whenever the headers are accepted, the
   * status and the payload are those of the whole stream: the split into reads
   * shows only in a response without Content-Length, which yields what the reads
   * that completed the blank line brought behind it.
   */
  method ReadResponse(s: bytes, sizes: seq<nat>, decode: bytes -> string) returns (r: Result<(nat, bytes), HttpError>)
    ensures match ReadHead(s, sizes, 0)
      case Err(e) => r == Err(e)
      case Ok(pos) =>
        && pos <= |s| && FindMarker(s, 0).Some? && FindMarker(s, 0).value + 4 <= pos
        && match WholeResponse(s, decode)
           case Err(e) => r == Err(e)
           case Ok((status, Some(body))) => r == Ok((status, body))
           case Ok((status, None)) => r == Ok((status, s[FindMarker(s, 0).value + 4..pos]))
  {
    hide ReadHead;
    var head := ReadUntilMarker(s, sizes);
    if head.Err? {
      return Err(head.error);
    }
    var pos := head.value;
    MarkerInPrefix(s, pos, 0);
    var split := FindMarker(s[..pos], 0).value;
    assert s[..pos][..split] == s[..split];
    r := ReadRest(s, pos, split, decode);
  }

  /** The header loop: what has been read when the blank line is complete. */
  method ReadUntilMarker(s: bytes, sizes: seq<nat>) returns (r: Result<nat, HttpError>)
    ensures r == ReadHead(s, sizes, 0)
    ensures r.Ok? ==> r.value <= |s| && FindMarker(s[..r.value], 0).Some?
  {
    var response: bytes := [];
    var left := sizes;
    var pos := 0;
    assert s[..0] == [];
    while FindMarker(response, 0).None?
      invariant pos <= |s| && response == s[..pos]
      invariant ReadHead(s, sizes, 0) == ReadHead(s, left, pos)
      decreases |s| - pos
    {
      var n := ReadLength(left, |s| - pos);
      if n == 0 {
        return Err(Malformed);
      }
      response := response + s[pos..pos + n];
      assert response == s[..pos + n];
      pos := pos + n;
      if |response| > MAX_HEADER_BYTES {
        return Err(HeadersTooLarge);
      }
      left := if left == [] then [] else left[1..];
    }
    return Ok(pos);
  }

  /** Parses the headers in front of the blank line at `split` and completes the body. */
  method ReadRest(s: bytes, pos: nat, split: nat, decode: bytes -> string) returns (r: Result<(nat, bytes), HttpError>)
    requires pos <= |s| && FindMarker(s, 0) == Some(split) && split + 4 <= pos
    ensures match WholeResponse(s, decode)
      case Err(e) => r == Err(e)
      case Ok((status, Some(body))) => r == Ok((status, body))
      case Ok((status, None)) => r == Ok((status, s[split + 4..pos]))
  {
    hide ParseHead;
    var head := ParseHead(decode(s[..split]));
    if head.Err? {
      return Err(head.error);
    }
    var (status, length) := head.value;
    var payload := s[split + 4..pos];
    if length.None? {
      return Ok((status, payload));
    }
    var body := ReadBody(s, pos, split + 4, length.value, payload);
    return if body.Err? then Err(body.error) else Ok((status, body.value));
  }

  /** Cuts the bytes already read to the announced length, or reads exactly the missing ones. */
  method ReadBody(s: bytes, pos: nat, start: nat, length: nat, payload: bytes) returns (r: Result<bytes, HttpError>)
    requires start <= pos <= |s| && payload == s[start..pos]
    ensures |s| < start + length ==> r == Err(UnexpectedEof)
    ensures |s| >= start + length ==> r == Ok(s[start..start + length])
  {
    if |payload| > length {
      assert payload[..length] == s[start..start + length];
      return Ok(payload[..length]);
    }
    var remaining := length - |payload|;
    if |s| - pos < remaining {
      return Err(UnexpectedEof);
    }
    assert payload + s[pos..pos + remaining] == s[start..start + length];
    return Ok(payload + s[pos..pos + remaining]);
  }

  // ---------------------------------------------------------------- when the split does not matter

  lemma {:induction false} HeadAccepted(s: bytes, sizes: seq<nat>, pos: nat, end: nat)
    requires pos <= |s| && FindMarker(s, 0).Some? && end == FindMarker(s, 0).value + 4
    requires end <= MAX_HEADER_BYTES - READ_SIZE + 1 || |s| <= MAX_HEADER_BYTES
    ensures ReadHead(s, sizes, pos).Ok?
    decreases |s| - pos
  {
    MarkerInPrefix(s, pos, 0);
    if pos < end {
      var n := ReadLength(sizes, |s| - pos);
      HeadAccepted(s, if sizes == [] then [] else sizes[1..], pos + n, end);
    }
  }

  lemma {:induction false} OneByteReads(s: bytes, pos: nat, p: nat, sizes: seq<nat>, end: nat)
    requires pos <= p < end <= |s| && p <= MAX_HEADER_BYTES
    requires FindMarker(s, 0).Some? && end == FindMarker(s, 0).value + 4
    ensures ReadHead(s, Repeat<nat>(p - pos, 1) + sizes, pos) == ReadHead(s, sizes, p)
    decreases p - pos
  {
    hide FindMarker;
    MarkerInPrefix(s, pos, 0);
    var all := Repeat<nat>(p - pos, 1) + sizes;
    if pos == p {
      assert all == sizes;
    } else {
      OneByteReads(s, pos + 1, p, sizes, end);
      assert all[0] == 1;
      assert all[1..] == Repeat<nat>(p - pos - 1, 1) + sizes;
    }
  }

  /** The reads that make a long header look too large: single bytes, then a full buffer. */
  lemma HeadRefused(s: bytes, end: nat)
    requires FindMarker(s, 0).Some? && end == FindMarker(s, 0).value + 4
    requires end > MAX_HEADER_BYTES - READ_SIZE + 1 && |s| > MAX_HEADER_BYTES
    ensures exists sizes :: ReadHead(s, sizes, 0) == Err(HeadersTooLarge)
  {
    var p := if end - 1 <= MAX_HEADER_BYTES then end - 1 else MAX_HEADER_BYTES;
    var sizes := Repeat<nat>(p, 1) + [READ_SIZE];
    OneByteReads(s, 0, p, [READ_SIZE], end);
    MarkerInPrefix(s, p, 0);
    assert p + ReadLength([READ_SIZE], |s| - p) > MAX_HEADER_BYTES;
    assert ReadHead(s, [READ_SIZE], p) == Err(HeadersTooLarge);
    assert ReadHead(s, sizes, 0) == Err(HeadersTooLarge);
  }

  /**
   * The headers are accepted for every split into reads exactly when they end
   * within 60 KiB and one byte, or the whole stream fits the header limit.
   */
  lemma SplitDoesNotMatter(s: bytes)
    requires FindMarker(s, 0).Some?
    ensures (forall sizes :: ReadHead(s, sizes, 0).Ok?) <==> FindMarker(s, 0).value + 4 <= 61441 || |s| <= 65536
  {
    var end := FindMarker(s, 0).value + 4;
    if end <= MAX_HEADER_BYTES - READ_SIZE + 1 || |s| <= MAX_HEADER_BYTES {
      forall sizes ensures ReadHead(s, sizes, 0).Ok? {
        HeadAccepted(s, sizes, 0, end);
      }
    } else {
      HeadRefused(s, end);
    }
  }
}
