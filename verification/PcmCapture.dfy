/**
 The PCM capture worklet (frontend/public/audio-worklets/pcm-capture-processor.js): samples arrive in
 pieces of any length and leave in frames of one length, with the rest flushed at the end.
 */
module PcmCapture {
  import opened Wrappers

  type Sample = real

  datatype Posted = Frame(generation: int, samples: seq<Sample>) | Flush(generation: int, samples: seq<Sample>)

  /** The whole frames of `data`. */
  function Chunks(data: seq<Sample>, size: nat): seq<seq<Sample>> {
    if size == 0 || |data| < size then [] else [data[..size]] + Chunks(data[size..], size)
  }

  /** What is left after them. */
  function Rest(data: seq<Sample>, size: nat): seq<Sample> {
    if size == 0 || |data| < size then data else Rest(data[size..], size)
  }

  function Concat(chunks: seq<seq<Sample>>): seq<Sample> {
    if chunks == [] then [] else chunks[0] + Concat(chunks[1..])
  }

  function Frames(generation: int, chunks: seq<seq<Sample>>): seq<Posted> {
    if chunks == [] then [] else [Frame(generation, chunks[0])] + Frames(generation, chunks[1..])
  }

  /** One frame message for each chunk, in order, under the capture's generation. */
  lemma {:induction false} FramesAreTagged(generation: int, chunks: seq<seq<Sample>>)
    ensures var posted := Frames(generation, chunks);
            && |posted| == |chunks|
            && forall i :: 0 <= i < |chunks| ==> posted[i] == Frame(generation, chunks[i])
  {
    if chunks != [] {
      FramesAreTagged(generation, chunks[1..]);
    }
  }

  lemma {:induction false} ChunksAreFull(data: seq<Sample>, size: nat)
    ensures forall c :: c in Chunks(data, size) ==> |c| == size
    decreases |data|
  {
    if size > 0 && |data| >= size {
      ChunksAreFull(data[size..], size);
    }
  }

  lemma ConcatCons(first: seq<Sample>, chunks: seq<seq<Sample>>, rest: seq<Sample>)
    ensures Concat([first] + chunks) + rest == first + (Concat(chunks) + rest)
  {
    assert ([first] + chunks)[1..] == chunks;
  }

  /** Frames and rest are exactly the data, and every frame is full. */
  lemma {:induction false} ChunksConserve(data: seq<Sample>, size: nat)
    requires size > 0
    ensures Concat(Chunks(data, size)) + Rest(data, size) == data
    ensures forall c :: c in Chunks(data, size) ==> |c| == size
    decreases |data|
  {
    ChunksAreFull(data, size);
    if |data| >= size {
      var first, rest := data[..size], data[size..];
      ChunksConserve(rest, size);
      ConcatCons(first, Chunks(rest, size), Rest(rest, size));
      assert data == first + rest;
    }
  }

  lemma {:induction false} RestCount(data: seq<Sample>, size: nat) returns (k: nat)
    requires size > 0
    ensures |Rest(data, size)| < size && |data| == k * size + |Rest(data, size)|
    decreases |data|
  {
    k := 0;
    if |data| >= size {
      var before := RestCount(data[size..], size);
      k := before + 1;
      assert k * size == before * size + size;
    }
  }

  /** The rest is |data| mod size samples long. */
  lemma RestIsRemainder(data: seq<Sample>, size: nat)
    requires size > 0
    ensures |Rest(data, size)| == |data| % size
  {
    var k := RestCount(data, size);
    Remainder(|data|, k, size, |Rest(data, size)|);
  }

  lemma {:induction false} Unique(k: nat, q: nat, size: nat, r: nat, s: nat)
    requires r < size && s < size && k * size + r == q * size + s
    ensures r == s
  {
    if k > 0 && q > 0 {
      assert (k - 1) * size == k * size - size;
      assert (q - 1) * size == q * size - size;
      Unique(k - 1, q - 1, size, r, s);
    } else if k > 0 {
      Grows(k, size);
    } else if q > 0 {
      Grows(q, size);
    }
  }

  lemma Grows(k: nat, size: nat)
    requires k > 0
    ensures k * size >= size
  {
    assert k * size == (k - 1) * size + size;
  }

  lemma Remainder(n: nat, k: nat, size: nat, r: nat)
    requires n == k * size + r && r < size
    ensures n % size == r
  {
    Unique(k, n / size, size, r, n % size);
  }

  /** Splitting changes nothing: chunking what is left of the first part with the second is chunking both. */
  lemma {:induction false} ChunksSplit(a: seq<Sample>, b: seq<Sample>, size: nat)
    requires size > 0
    ensures Chunks(a + b, size) == Chunks(a, size) + Chunks(Rest(a, size) + b, size)
    ensures Rest(a + b, size) == Rest(Rest(a, size) + b, size)
    decreases |a|
  {
    if |a| >= size {
      assert (a + b)[..size] == a[..size] && (a + b)[size..] == a[size..] + b;
      ChunksSplit(a[size..], b, size);
    }
  }

  lemma {:induction false} FramesConcat(generation: int, a: seq<seq<Sample>>, b: seq<seq<Sample>>)
    ensures Frames(generation, a + b) == Frames(generation, a) + Frames(generation, b)
  {
    if a == [] {
      assert a + b == b;
    } else {
      assert (a + b)[1..] == a[1..] + b;
      FramesConcat(generation, a[1..], b);
    }
  }

  /** All samples of a list of messages, in order. */
  function Samples(posted: seq<Posted>): seq<Sample> {
    if posted == [] then [] else posted[0].samples + Samples(posted[1..])
  }

  lemma {:induction false} SamplesConcat(a: seq<Posted>, b: seq<Posted>)
    ensures Samples(a + b) == Samples(a) + Samples(b)
  {
    if a == [] {
      assert a + b == b;
    } else {
      assert (a + b)[1..] == a[1..] + b;
      SamplesConcat(a[1..], b);
    }
  }

  lemma {:induction false} FrameSamples(generation: int, chunks: seq<seq<Sample>>)
    ensures Samples(Frames(generation, chunks)) == Concat(chunks)
  {
    if chunks != [] {
      FrameSamples(generation, chunks[1..]);
    }
  }

  /** The frames of a capture and its flush hold exactly its samples, in order. */
  lemma CaptureConserves(data: seq<Sample>, size: nat, framed: int, flushed: int)
    requires size > 0
    ensures Samples(Frames(framed, Chunks(data, size)) + [Flush(flushed, Rest(data, size))]) == data
  {
    var flush := [Flush(flushed, Rest(data, size))];
    SamplesConcat(Frames(framed, Chunks(data, size)), flush);
    FrameSamples(framed, Chunks(data, size));
    ChunksConserve(data, size);
    assert flush[1..] == [];
  }

  /** A piece that fits into the frame being filled: it completes the frame, or waits in it. */
  lemma Absorb(generation: int, data: seq<Sample>, piece: seq<Sample>, size: nat)
    requires size > 0 && |Rest(data, size)| + |piece| <= size
    ensures var filled, sent := Rest(data, size) + piece, Frames(generation, Chunks(data, size));
            if |filled| == size then
              && Rest(data + piece, size) == []
              && Frames(generation, Chunks(data + piece, size)) == sent + [Frame(generation, filled)]
            else
              Rest(data + piece, size) == filled && Frames(generation, Chunks(data + piece, size)) == sent
  {
    var filled := Rest(data, size) + piece;
    ChunksSplit(data, piece, size);
    if |filled| == size {
      assert filled[..size] == filled && filled[size..] == [];
      assert Chunks(filled, size) == [filled];
      FramesConcat(generation, Chunks(data, size), [filled]);
      assert [filled][1..] == [];
    } else {
      assert Chunks(data, size) + [] == Chunks(data, size);
    }
  }

  /** One pass over `n` more samples of an input, on top of what had been posted `first`. */
  lemma PassAbsorbs(generation: int, first: seq<Posted>, pending: seq<Sample>, input: seq<Sample>, i: nat, n: nat,
                    size: nat)
    requires size > 0 && i + n <= |input| && |Rest(pending + input[..i], size)| + n <= size
    ensures var data, next := pending + input[..i], pending + input[..i + n];
            var filled := Rest(data, size) + input[i..i + n];
            var sent, sent' := first + Frames(generation, Chunks(data, size)),
                               first + Frames(generation, Chunks(next, size));
            if |filled| == size then Rest(next, size) == [] && sent' == sent + [Frame(generation, filled)]
            else Rest(next, size) == filled && sent' == sent
  {
    var data := pending + input[..i];
    assert data + input[i..i + n] == pending + input[..i + n];
    Absorb(generation, data, input[i..i + n], size);
  }

  /** How many samples one pass of the copy loop takes. */
  function ToCopy(size: nat, writeIndex: nat, left: nat): nat
    requires writeIndex <= size
  {
    if size - writeIndex < left then size - writeIndex else left
  }

  /** A pass of the copy loop that starts below the frame size makes progress exactly when the frame size is not 0. */
  lemma PassAdvancesIff(size: nat, writeIndex: nat, left: nat)
    requires left > 0 && writeIndex <= size && (size > 0 ==> writeIndex < size)
    ensures ToCopy(size, writeIndex, left) > 0 <==> size > 0
  {
  }

  class PcmCaptureProcessor {
    const frameSize: nat
    var buffer: array<Sample>
    var writeIndex: nat
    var activeGeneration: int
    var capturing: bool
    /** The messages posted so far. */
    var port: seq<Posted>
    /** The samples captured since the last start; only the proofs read it. */
    ghost var captured: seq<Sample>
    /** How many messages had been posted at the last start. */
    ghost var startedAt: nat

    ghost function Pending(): seq<Sample>
      requires writeIndex <= buffer.Length
      reads this, buffer
    {
      buffer[..writeIndex]
    }

    /** Since the start, the frames posted and the buffer are the frames and the rest of all captured samples. */
    ghost predicate Valid()
      reads this, buffer
    {
      && buffer.Length == frameSize && writeIndex <= frameSize
      && (frameSize > 0 ==> writeIndex < frameSize)
      && Pending() == Rest(captured, frameSize)
      && startedAt <= |port|
      && (capturing ==> port[startedAt..] == Frames(activeGeneration, Chunks(captured, frameSize)))
    }

    constructor (configured: Option<nat>)
      ensures Valid() && !capturing && port == [] && captured == []
      ensures frameSize == if configured.Some? then configured.value else 2048
    {
      frameSize := if configured.Some? then configured.value else 2048;
      buffer := new Sample[if configured.Some? then configured.value else 2048];
      writeIndex, activeGeneration, capturing, port := 0, 0, false, [];
      captured, startedAt := [], 0;
    }

    method OnStart(generation: int)
      requires Valid()
      modifies this
      ensures Valid() && capturing && activeGeneration == generation && captured == []
      ensures port == old(port) && startedAt == |port|
    {
      activeGeneration := generation;
      capturing := true;
      buffer := new Sample[frameSize];
      writeIndex := 0;
      captured, startedAt := [], |port|;
    }

    /** Post what is buffered and stop: everything posted since the start is everything captured since then. */
    method OnStop(generation: int)
      requires Valid()
      modifies this
      ensures Valid() && !capturing && captured == []
      ensures port == old(port) + [Flush(generation, Rest(old(captured), frameSize))]
      ensures startedAt == old(startedAt)
      ensures old(capturing) && frameSize > 0 ==> Samples(port[startedAt..]) == old(captured)
    {
      if capturing && frameSize > 0 {
        CaptureConserves(captured, frameSize, activeGeneration, generation);
      }
      ghost var sent := port[startedAt..];
      capturing := false;
      if writeIndex > 0 {
        port := port + [Flush(generation, buffer[..writeIndex])];
      } else {
        port := port + [Flush(generation, [])];
      }
      assert port[startedAt..] == sent + [Flush(generation, Rest(captured, frameSize))];
      buffer := new Sample[frameSize];
      writeIndex := 0;
      captured := [];
    }

    /** Append samples that fit to the frame being filled. */
    method CopyIn(piece: seq<Sample>)
      requires writeIndex + |piece| <= buffer.Length
      modifies this`writeIndex, buffer
      ensures writeIndex == old(writeIndex) + |piece|
      ensures Pending() == old(Pending()) + piece
    {
      forall k | 0 <= k < |piece| {
        buffer[writeIndex + k] := piece[k];
      }
      writeIndex := writeIndex + |piece|;
    }

    /** The copy loop: fill the buffer, post it whenever it is full, start a new one. */
    method CopyAll(input: seq<Sample>)
      requires buffer.Length == frameSize && writeIndex < frameSize
      modifies this`port, this`writeIndex, this`buffer, buffer
      ensures buffer.Length == frameSize && writeIndex < frameSize
      ensures Pending() == Rest(old(Pending()) + input, frameSize)
      ensures port == old(port) + Frames(activeGeneration, Chunks(old(Pending()) + input, frameSize))
    {
      ghost var pending, first := Pending(), port;
      var readIndex := 0;
      assert pending + input[..0] == pending && first + [] == first;
      while readIndex < |input|
        invariant readIndex <= |input|
        invariant buffer == old(buffer) || fresh(buffer)
        invariant buffer.Length == frameSize && writeIndex < frameSize
        invariant Pending() == Rest(pending + input[..readIndex], frameSize)
        invariant port == first + Frames(activeGeneration, Chunks(pending + input[..readIndex], frameSize))
      {
        var toCopy := ToCopy(frameSize, writeIndex, |input| - readIndex);
        PassAbsorbs(activeGeneration, first, pending, input, readIndex, toCopy, frameSize);
        CopyIn(input[readIndex..readIndex + toCopy]);
        readIndex := readIndex + toCopy;
        if writeIndex == frameSize {
          assert buffer[..] == Pending();
          port := port + [Frame(activeGeneration, buffer[..])];
          buffer := new Sample[frameSize];
          writeIndex := 0;
        }
      }
      assert input[..readIndex] == input;
    }

    /** Take one input, of any length, or none. */
    method Process(input: seq<Sample>)
      requires Valid() && (frameSize > 0 || !capturing || input == [])
      modifies this, buffer
      ensures Valid() && capturing == old(capturing) && activeGeneration == old(activeGeneration)
      ensures startedAt == old(startedAt)
      ensures captured == if capturing then old(captured) + input else old(captured)
      ensures port == old(port) +
                if capturing then Frames(activeGeneration, Chunks(old(Pending()) + input, frameSize)) else []
    {
      if !capturing || |input| == 0 {
        assert old(captured) + [] == old(captured) && old(Pending()) + [] == old(Pending());
        return;
      }
      Extended(captured, Pending(), input);
      ghost var sent := port[startedAt..];
      CopyAll(input);
      captured := captured + input;
      assert port[startedAt..] == sent + port[|old(port)|..];
    }

    /** The frames of a longer capture are the earlier frames and those of the pending samples with the new ones. */
    lemma Extended(earlier: seq<Sample>, pending: seq<Sample>, input: seq<Sample>)
      requires frameSize > 0 && pending == Rest(earlier, frameSize)
      ensures Rest(earlier + input, frameSize) == Rest(pending + input, frameSize)
      ensures Frames(activeGeneration, Chunks(earlier + input, frameSize))
           == Frames(activeGeneration, Chunks(earlier, frameSize))
              + Frames(activeGeneration, Chunks(pending + input, frameSize))
    {
      ChunksSplit(earlier, input, frameSize);
      FramesConcat(activeGeneration, Chunks(earlier, frameSize), Chunks(pending + input, frameSize));
    }
  }
}
