/** Shared types and sequence functions. */
module Common {

  datatype Option<+T> = None | Some(value: T)

  datatype Result<+T, +E> = Ok(value: T) | Err(error: E)

  type byte = b: int | 0 <= b < 256

  type bytes = seq<byte>

  /** One more than the largest 64-bit number. */
  const U64_LIMIT := 0x1_0000_0000_0000_0000

  predicate AllZero(s: bytes) {
    forall i :: 0 <= i < |s| ==> s[i] == 0
  }

  /** `n` copies of `x`. */
  function Repeat<T>(n: nat, x: T): (s: seq<T>)
    ensures |s| == n && forall i :: 0 <= i < n ==> s[i] == x
  {
    if n == 0 then [] else Repeat(n - 1, x) + [x]
  }

  /** Concatenation of a sequence of sequences. */
  function Flatten<T>(parts: seq<seq<T>>): seq<T> {
    if parts == [] then [] else parts[0] + Flatten(parts[1..])
  }

  lemma {:induction false} FlattenSnoc<T>(parts: seq<seq<T>>, last: seq<T>)
    ensures Flatten(parts + [last]) == Flatten(parts) + last
  {
    if parts == [] {
      assert parts + [last] == [last];
      assert Flatten([last]) == last + Flatten([]) == last;
    } else {
      FlattenSnoc(parts[1..], last);
      assert (parts + [last])[1..] == parts[1..] + [last];
    }
  }
}
