/**
  * The recorded data: the chunks `ondataavailable` collects and the single
  * `Blob` `prepareDownload` assembles from them in order.
  */
module Artifact {

  newtype byte = b: int | 0 <= b < 256

  /** One chunk of encoded media, as a `Blob` delivered by the encoder carries it. */
  type Chunk = seq<byte>

  /** A `Blob`: its bytes and its media type. Its `size` is the number of bytes. */
  datatype Blob = Blob(bytes: seq<byte>, mediaType: string) {
    function Size(): nat { |bytes| }
  }

  /** The media type `prepareDownload` gives the artifact, whatever the encoder used. */
  const ArtifactType := "video/webm"

  /** The chunks' bytes, one after another in arrival order. */
  function Concat(chunks: seq<Chunk>): seq<byte> {
    if chunks == [] then [] else chunks[0] + Concat(chunks[1..])
  }

  /** The sum of the chunks' sizes. */
  function TotalSize(chunks: seq<Chunk>): nat {
    if chunks == [] then 0 else |chunks[0]| + TotalSize(chunks[1..])
  }

  /** `new Blob(recordedChunks, { type: 'video/webm' })` */
  function Assemble(chunks: seq<Chunk>): (b: Blob)
    ensures b.bytes == Concat(chunks) && b.mediaType == ArtifactType
    ensures b.Size() == TotalSize(chunks)
  {
    ConcatSize(chunks);
    Blob(Concat(chunks), ArtifactType)
  }

  /** The artifact is as large as all its chunks together. */
  lemma {:induction false} ConcatSize(chunks: seq<Chunk>)
    ensures |Concat(chunks)| == TotalSize(chunks)
  {
    if chunks != [] {
      ConcatSize(chunks[1..]);
    }
  }

  /** Concatenating two runs of chunks concatenates their bytes. */
  lemma {:induction false} ConcatAppend(a: seq<Chunk>, b: seq<Chunk>)
    ensures Concat(a + b) == Concat(a) + Concat(b)
  {
    if a == [] {
      assert a + b == b;
    } else {
      assert (a + b)[1..] == a[1..] + b;
      ConcatAppend(a[1..], b);
    }
  }

  /** Appending one chunk appends its bytes and adds its size. */
  lemma ConcatPush(chunks: seq<Chunk>, c: Chunk)
    ensures Concat(chunks + [c]) == Concat(chunks) + c
    ensures TotalSize(chunks + [c]) == TotalSize(chunks) + |c|
  {
    ConcatAppend(chunks, [c]);
    assert Concat([c]) == c + Concat([]);
    ConcatSize(chunks + [c]);
    ConcatSize(chunks);
  }

  /**
    * Order is kept: chunk `i` occupies the bytes from the size of the chunks
    * before it up to the size of the chunks up to and including it.
    */
  lemma ChunkPlacement(chunks: seq<Chunk>, i: nat)
    requires i < |chunks|
    ensures |Concat(chunks)| == TotalSize(chunks)
    ensures TotalSize(chunks[..i + 1]) == TotalSize(chunks[..i]) + |chunks[i]| <= TotalSize(chunks)
    ensures Concat(chunks)[TotalSize(chunks[..i])..TotalSize(chunks[..i + 1])] == chunks[i]
  {
    var before, rest := chunks[..i], chunks[i + 1..];
    assert chunks[..i + 1] == before + [chunks[i]];
    assert chunks == before + [chunks[i]] + rest;
    ConcatPush(before, chunks[i]);
    ConcatAppend(before + [chunks[i]], rest);
    ConcatSize(before);
    ConcatSize(before + [chunks[i]]);
    ConcatSize(rest);
    ConcatSize(chunks);
  }
}
