/** Values shared by every component: bytes, identifiers, optional values and chunk lists. */
module Prelude {

  newtype byte = x: int | 0 <= x < 256
  newtype u32 = x: int | 0 <= x < 0x1_0000_0000

  type Bytes = seq<byte>

  /** A UUID is its sixteen bytes. */
  type Uuid = id: Bytes | |id| == 16 witness [0, 0, 0, 0, 0, 0, 0, 0, 0, 0, 0, 0, 0, 0, 0, 0]

  datatype Option<+T> = None | Some(value: T) {
    function GetOr(default: T): T {
      match this
      case None => default
      case Some(v) => v
    }
  }

  datatype Result<+T, +E> = Ok(value: T) | Err(error: E)

  function Get<K, V>(m: map<K, V>, k: K): Option<V> {
    if k in m then Some(m[k]) else None
  }

  lemma AddThenRemove<K, V>(m: map<K, V>, k: K, v: V)
    requires k !in m
    ensures m[k := v] - {k} == m
  {
  }

  /** The chunks a body loop forwards: the empty ones are skipped. */
  function NonEmpty(chunks: seq<Bytes>): seq<Bytes> {
    if chunks == [] then [] else
      var init, last := chunks[..|chunks| - 1], chunks[|chunks| - 1];
      NonEmpty(init) + if last == [] then [] else [last]
  }

  function Concat(chunks: seq<Bytes>): Bytes {
    if chunks == [] then [] else Concat(chunks[..|chunks| - 1]) + chunks[|chunks| - 1]
  }

  lemma NonEmptySnoc(chunks: seq<Bytes>, chunk: Bytes)
    ensures NonEmpty(chunks + [chunk]) == NonEmpty(chunks) + if chunk == [] then [] else [chunk]
  {
    assert (chunks + [chunk])[..|chunks|] == chunks;
  }

  lemma ConcatSnoc(chunks: seq<Bytes>, chunk: Bytes)
    ensures Concat(chunks + [chunk]) == Concat(chunks) + chunk
  {
    assert (chunks + [chunk])[..|chunks|] == chunks;
  }

  /** Of one chunk after others, the empty one is skipped and any other kept, in its place. */
  lemma {:induction false} NonEmptyMeaning(before: seq<Bytes>, chunk: Bytes)
    ensures NonEmpty(before + [[]]) == NonEmpty(before) && NonEmpty([]) == []
    ensures chunk != [] ==> NonEmpty(before + [chunk]) == NonEmpty(before) + [chunk]
    ensures forall c | c in NonEmpty(before) :: c != [] && c in before
  {
    NonEmptySnoc(before, []);
    NonEmptySnoc(before, chunk);
    if before != [] {
      NonEmptyMeaning(before[..|before| - 1], chunk);
    }
  }

  /** Skipping the empty chunks loses no byte. */
  lemma {:induction false} ConcatNonEmpty(chunks: seq<Bytes>)
    ensures Concat(NonEmpty(chunks)) == Concat(chunks)
  {
    if chunks != [] {
      var init, last := chunks[..|chunks| - 1], chunks[|chunks| - 1];
      ConcatNonEmpty(init);
      if last == [] {
        assert NonEmpty(chunks) == NonEmpty(init) && Concat(chunks) == Concat(init);
      } else {
        ConcatSnoc(NonEmpty(init), last);
      }
    }
  }

  /** Fewer chunks, fewer bytes: a prefix of the chunks is a prefix of the bytes. */
  lemma {:induction false} ConcatPrefix(short: seq<Bytes>, long: seq<Bytes>)
    requires short <= long
    ensures Concat(short) <= Concat(long)
    decreases |long|
  {
    if short == long {
    } else {
      ConcatPrefix(short, long[..|long| - 1]);
    }
  }
}
