/** How a body travels: one frame for each non-empty chunk, numbered from 0 modulo 2^32. */
module Framing {
  import opened Prelude
  import opened Frame
  import opened Messages

  const SEQ_MODULUS: nat := 0x1_0000_0000

  function SeqNo(i: nat): u32 { (i % SEQ_MODULUS) as u32 }

  /** `seq.wrapping_add(1)` */
  function Bump(n: u32): u32 { if n == 0xffff_ffff then 0 else n + 1 }

  function BodyFrames(kind: StreamKind, version: byte, id: Uuid, chunks: seq<Bytes>): (frames: seq<Wire>)
    ensures |frames| == |chunks|
  {
    seq(|chunks|, i requires 0 <= i < |chunks| => BodyFrame(kind, version, id, SeqNo(i), chunks[i]))
  }

  lemma BodyFramesSnoc(kind: StreamKind, version: byte, id: Uuid, chunks: seq<Bytes>, chunk: Bytes)
    ensures BodyFrames(kind, version, id, chunks + [chunk]) ==
            BodyFrames(kind, version, id, chunks) + [BodyFrame(kind, version, id, SeqNo(|chunks|), chunk)]
  {
  }

  lemma BumpCounts(i: nat)
    ensures Bump(SeqNo(i)) == SeqNo(i + 1)
  {
    var k := i / SEQ_MODULUS;
    assert i == k * SEQ_MODULUS + i % SEQ_MODULUS;
    if i % SEQ_MODULUS == SEQ_MODULUS - 1 {
      assert i + 1 == (k + 1) * SEQ_MODULUS;
    } else {
      assert i + 1 == k * SEQ_MODULUS + (i % SEQ_MODULUS + 1);
    }
  }

  /** The payloads of the frames that decode. */
  function Payloads(frames: seq<Wire>): seq<Bytes> {
    if frames == [] then [] else
      var last := frames[|frames| - 1];
      Payloads(frames[..|frames| - 1])
        + if last.Binary? && DecodeFrame(last.bytes).Ok? then [DecodeFrame(last.bytes).value.1] else []
  }

  lemma {:induction false} PayloadsOfFrames(kind: StreamKind, version: byte, id: Uuid, chunks: seq<Bytes>)
    requires IsSupported(version)
    ensures Payloads(BodyFrames(kind, version, id, chunks)) == chunks
  {
    if chunks != [] {
      var init, last := chunks[..|chunks| - 1], chunks[|chunks| - 1];
      PayloadsOfFrames(kind, version, id, init);
      BodyFramesSnoc(kind, version, id, init, last);
      assert chunks == init + [last];
      FrameRoundTrip(version, ChunkHeader(kind, id, SeqNo(|init|), false), last);
      assert BodyFrames(kind, version, id, chunks)[..|init|] == BodyFrames(kind, version, id, init);
    }
  }

  /** The i-th frame is numbered i modulo 2^32 and is not final; decoding and concatenating gives the
      original bytes, empty chunks and all. */
  lemma BodyFramingLaw(kind: StreamKind, version: byte, id: Uuid, chunks: seq<Bytes>)
    requires IsSupported(version)
    ensures var frames := BodyFrames(kind, version, id, NonEmpty(chunks));
            && (forall i | 0 <= i < |frames| ::
                  DecodeFrame(frames[i].bytes) ==
                  Ok((ChunkHeader(kind, id, (i % 0x1_0000_0000) as u32, false), NonEmpty(chunks)[i])))
            && Concat(Payloads(frames)) == Concat(chunks)
  {
    var frames := BodyFrames(kind, version, id, NonEmpty(chunks));
    forall i | 0 <= i < |frames|
      ensures DecodeFrame(frames[i].bytes) ==
              Ok((ChunkHeader(kind, id, (i % 0x1_0000_0000) as u32, false), NonEmpty(chunks)[i]))
    {
      FrameRoundTrip(version, ChunkHeader(kind, id, SeqNo(i), false), NonEmpty(chunks)[i]);
    }
    PayloadsOfFrames(kind, version, id, NonEmpty(chunks));
    ConcatNonEmpty(chunks);
  }
}
