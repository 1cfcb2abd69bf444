/**
 * The `need-data` callback of `create_ram_pipeline` in
 * `old_pareidolia_with_ram.py`: a cursor over the clip's bytes, held in
 * memory, that pushes 4096-byte chunks into the appsrc and, once the data
 * is exhausted, either wraps around or signals end of stream.
 */
module RamFeeder {
  type Byte = bv8

  const ChunkSize: nat := 4096

  /** What one callback emits into the appsrc. */
  datatype Emission = Push(chunk: seq<Byte>) | EndOfStream

  /** The outcome of one callback: what it emitted and the new cursor. */
  datatype FeedStep = FeedStep(emit: Emission, offset: nat)

  /** `file_data[offset:offset + chunk_size]`, with Python's clamping at the end. */
  function Chunk(data: seq<Byte>, offset: nat): (r: seq<Byte>)
    requires offset <= |data|
    ensures |r| == if |data| - offset < ChunkSize then |data| - offset else ChunkSize
    ensures r == data[offset..offset + |r|]
  {
    data[offset..if offset + ChunkSize <= |data| then offset + ChunkSize else |data|]
  }

  /**
   * One `need_data` call: while there is data left, push the next chunk and
   * advance by its length; at the end, reset to 0 and push the first chunk
   * for a clip with an end, or emit end of stream for one that plays to the
   * end of its file.
   */
  function FeedOnce(data: seq<Byte>, loops: bool, offset: nat): (r: FeedStep)
    requires offset <= |data|
    ensures r.offset <= |data|
    ensures offset < |data| ==> r == FeedStep(Push(Chunk(data, offset)), offset + |Chunk(data, offset)|)
    ensures offset == |data| && loops ==> r == FeedStep(Push(Chunk(data, 0)), |Chunk(data, 0)|)
    ensures offset == |data| && !loops ==> r == FeedStep(EndOfStream, 0)
  {
    if offset < |data| then
      var chunk := Chunk(data, offset);
      FeedStep(Push(chunk), offset + |chunk|)
    else if loops then
      var chunk := Chunk(data, 0);
      FeedStep(Push(chunk), |chunk|)
    else FeedStep(EndOfStream, 0)
  }

  /** The cursor after `n` callbacks. */
  function Feed(data: seq<Byte>, loops: bool, offset: nat, n: nat): (r: nat)
    requires offset <= |data|
    ensures r <= |data|
    decreases n
  {
    if n == 0 then offset else Feed(data, loops, FeedOnce(data, loops, offset).offset, n - 1)
  }

  /** The number of callbacks that push the `remaining` bytes. */
  function CallsFor(remaining: nat): nat {
    (remaining + ChunkSize - 1) / ChunkSize
  }

  /** From any cursor, `ceil(remaining / 4096)` callbacks reach the end of the data exactly. */
  lemma {:induction false} FeedReachesEnd(data: seq<Byte>, loops: bool, offset: nat)
    requires offset <= |data|
    ensures Feed(data, loops, offset, CallsFor(|data| - offset)) == |data|
    decreases |data| - offset
  {
    var remaining := |data| - offset;
    if remaining > 0 {
      var next := FeedOnce(data, loops, offset).offset;
      if remaining <= ChunkSize {
        assert next == |data|;
        assert CallsFor(remaining) == 1;
      } else {
        assert next == offset + ChunkSize;
        assert CallsFor(remaining) == CallsFor(|data| - next) + 1;
        FeedReachesEnd(data, loops, next);
      }
    }
  }

  /** The concatenation of a sequence of chunks. */
  function Flatten(chunks: seq<seq<Byte>>): seq<Byte> {
    if chunks == [] then [] else Flatten(chunks[..|chunks| - 1]) + chunks[|chunks| - 1]
  }

  /** One appsrc feed: the closure's captured data, its `nonlocal offset`, and what it has emitted. */
  class Feeder {
    const fileData: seq<Byte>
    /** `clip.get('end_sec', -1) != -1` */
    const loops: bool
    var offset: nat
    var emitted: seq<Emission>
    /** The chunks pushed since the cursor was last reset to 0. */
    ghost var sinceReset: seq<seq<Byte>>

    ghost predicate Valid()
      reads this
    {
      offset <= |fileData| && Flatten(sinceReset) == fileData[..offset]
    }

    constructor (fileData: seq<Byte>, loops: bool)
      ensures Valid()
      ensures this.fileData == fileData && this.loops == loops
      ensures offset == 0 && emitted == [] && sinceReset == []
    {
      this.fileData := fileData;
      this.loops := loops;
      offset := 0;
      emitted := [];
      sinceReset := [];
    }

    /** Push the chunk at the cursor and advance past it. */
    method PushChunk()
      requires Valid() && offset <= |fileData|
      modifies this
      ensures Valid()
      ensures emitted == old(emitted) + [Push(Chunk(fileData, old(offset)))]
      ensures offset == old(offset) + |Chunk(fileData, old(offset))|
      ensures sinceReset == old(sinceReset) + [Chunk(fileData, old(offset))]
    {
      var chunk := fileData[offset..if offset + ChunkSize <= |fileData| then offset + ChunkSize else |fileData|];
      emitted := emitted + [Push(chunk)];
      sinceReset := sinceReset + [chunk];
      assert sinceReset[..|sinceReset| - 1] == old(sinceReset);
      assert fileData[..offset] + chunk == fileData[..offset + |chunk|];
      offset := offset + |chunk|;
    }

    method NeedData()
      requires Valid()
      modifies this
      ensures Valid()
      ensures emitted == old(emitted) + [FeedOnce(fileData, loops, old(offset)).emit]
      ensures offset == FeedOnce(fileData, loops, old(offset)).offset
    {
      if offset < |fileData| {
        PushChunk();
      } else {
        offset := 0;
        sinceReset := [];
        if loops {
          PushChunk();
        } else {
          emitted := emitted + [EndOfStream];
        }
      }
    }
  }
}
