// The echo correlator's circular buffer of far-end samples.
module EchoRing {
  import opened Arithmetic
  import opened Blocks

  // The remainder of the source language: it takes the sign of the dividend.
  function Remainder(a: int, b: int): int
    requires b > 0
  {
    if a >= 0 then a % b else -((-a) % b)
  }

  function Index(capacity: nat, frame: int): (i: nat)
    requires capacity > 0
    ensures i < capacity
  {
    Remainder(Remainder(frame, capacity) + capacity, capacity)
  }

  // Two frames share a slot exactly when they are a whole number of turns apart.
  lemma SlotShared(capacity: nat, a: int, b: int) returns (turns: int)
    requires capacity > 0 && Index(capacity, a) == Index(capacity, b)
    ensures a - b == capacity * turns
  {
    var p := IndexTurns(capacity, a);
    var q := IndexTurns(capacity, b);
    turns := p - q;
    assert capacity * (p - q) == capacity * p - capacity * q;
  }

  lemma IndexTurns(capacity: nat, a: int) returns (turns: int)
    requires capacity > 0
    ensures a == capacity * turns + Index(capacity, a)
  {
    var r := Remainder(a, capacity);
    var q := if a >= 0 then a / capacity else -((-a) / capacity);
    assert a == capacity * q + r by {
      if a < 0 {
        assert -a == capacity * ((-a) / capacity) + (-a) % capacity;
        assert capacity * -((-a) / capacity) == -(capacity * ((-a) / capacity));
      }
    }
    if r < 0 {
      turns := q - 1;
      assert capacity * (q - 1) == capacity * q - capacity;
      SmallMod(r + capacity, capacity);
    } else {
      turns := q;
      assert r + capacity == capacity * 1 + r;
      DivUnique(capacity, 1, r);
    }
  }

  lemma SmallMod(a: nat, b: nat)
    requires a < b
    ensures a % b == a
  {
  }

  lemma TurnsShare(capacity: nat, a: int, turns: int)
    requires capacity > 0
    ensures Index(capacity, a + capacity * turns) == Index(capacity, a)
  {
    hide Index;
    var p := IndexTurns(capacity, a);
    var q := IndexTurns(capacity, a + capacity * turns);
    Distribute(capacity, p, turns);
    OneRemainder(capacity, p + turns, Index(capacity, a), q, Index(capacity, a + capacity * turns));
  }

  lemma Distribute(c: int, x: int, y: int)
    ensures c * (x + y) == c * x + c * y
  {
  }

  lemma OneRemainder(c: int, p: int, i: int, q: int, j: int)
    requires c * p + i == c * q + j && 0 <= i < c && 0 <= j < c
    ensures i == j
  {
    Distribute(c, q, p - q);
    NoTurn(c, p - q);
  }

  lemma NoTurn(capacity: int, turns: int)
    requires -capacity < capacity * turns < capacity
    ensures turns == 0
  {
    assert capacity * -turns == -(capacity * turns);
    if turns > 0 {
      MulMono(capacity, 1, turns);
    } else if turns < 0 {
      MulMono(capacity, 1, -turns);
    }
  }

  lemma NearSlots(capacity: nat, a: int, b: int)
    requires capacity > 0 && Index(capacity, a) == Index(capacity, b) && a < b + capacity && b < a + capacity
    ensures a == b
  {
    var turns := SlotShared(capacity, a, b);
    NoTurn(capacity, turns);
  }

  // ---------- what a slot holds ----------

  datatype Written = Written(frame: int, value: real)

  // After these writes, in order: the value last written to the slot, or 0.
  function Slot(capacity: nat, writes: seq<Written>, slot: nat): real
    requires capacity > 0
  {
    if writes == [] then 0.0
    else
      var last := writes[|writes| - 1];
      if Index(capacity, last.frame) == slot then last.value else Slot(capacity, writes[..|writes| - 1], slot)
  }

  // A block of samples that ends before `endFrame`.
  function Block(samples: seq<real>, endFrame: int): seq<Written> {
    seq(|samples|, i requires 0 <= i < |samples| => Written(endFrame - |samples| + i, samples[i]))
  }

  class EchoReferenceCorrelator {
    const capacity: nat
    const samples: array<real>
    var latestFrame: int
    var hasReference: bool
    ghost var writes: seq<Written>

    ghost predicate Valid()
      reads this, samples
    {
      && capacity > 0 && samples.Length == capacity
      && forall k :: 0 <= k < capacity ==> samples[k] == Slot(capacity, writes, k)
    }

    constructor (capacity: nat)
      requires capacity > 0
      ensures Valid() && writes == [] && this.capacity == capacity && latestFrame == 0 && !hasReference
      ensures fresh(samples)
    {
      this.capacity := capacity;
      samples := new real[capacity](_ => 0.0);
      latestFrame, hasReference, writes := 0, false, [];
    }

    method Write(block: seq<real>, endFrame: int)
      requires Valid()
      modifies this, samples
      ensures Valid() && hasReference
      ensures writes == old(writes) + Block(block, endFrame)
      ensures latestFrame == if endFrame > old(latestFrame) then endFrame else old(latestFrame)
    {
      var startFrame := endFrame - |block|;
      for i := 0 to |block|
        invariant Valid()
        invariant writes == old(writes) + Block(block, endFrame)[..i]
        invariant latestFrame == old(latestFrame)
      {
        ghost var w := Written(startFrame + i, block[i]);
        assert Block(block, endFrame)[i] == w;
        assert (writes + [w])[..|writes|] == writes;
        samples[Index(capacity, startFrame + i)] := block[i];
        writes := writes + [w];
      }
      assert Block(block, endFrame)[..|block|] == Block(block, endFrame);
      latestFrame := if endFrame > latestFrame then endFrame else latestFrame;
      hasReference := true;
    }

    method ReadAligned(length: nat, inputEndFrame: int, lagSamples: int) returns (found: bool, out: seq<real>)
      requires Valid()
      ensures found <==> hasReference && inputEndFrame - lagSamples <= latestFrame &&
                         inputEndFrame - lagSamples - length >= latestFrame - capacity
      ensures found ==> |out| == length
      ensures found ==> forall i :: 0 <= i < length ==>
                out[i] == Slot(capacity, writes, Index(capacity, inputEndFrame - lagSamples - length + i))
    {
      out := [];
      if !hasReference {
        return false, out;
      }
      var referenceEnd := inputEndFrame - lagSamples;
      var referenceStart := referenceEnd - length;
      if referenceEnd > latestFrame || referenceStart < latestFrame - capacity {
        return false, out;
      }
      for i := 0 to length
        invariant |out| == i
        invariant forall k :: 0 <= k < i ==> out[k] == Slot(capacity, writes, Index(capacity, referenceStart + k))
      {
        out := out + [samples[Index(capacity, referenceStart + i)]];
      }
      found := true;
    }
  }

  // ---------- contiguous writes are a stream ----------

  // The far-end stream that starts at `start`, zero before and after.
  function Stream(start: int, stream: seq<real>, frame: int): real {
    if start <= frame < start + |stream| then stream[frame - start] else 0.0
  }

  // Blocks written end to end amount to one block.
  lemma BlocksJoin(a: seq<real>, b: seq<real>, end: int)
    ensures Block(a, end) + Block(b, end + |b|) == Block(a + b, end + |b|)
  {
  }

  // The last `capacity` frames before the end of the stream are all in their slots.
  lemma {:induction false} SlotIsStream(capacity: nat, start: int, stream: seq<real>, frame: int)
    requires capacity > 0 && start + |stream| - capacity <= frame < start + |stream|
    ensures Slot(capacity, Block(stream, start + |stream|), Index(capacity, frame)) == Stream(start, stream, frame)
    decreases |stream|
  {
    hide Index;
    var end := start + |stream|;
    if stream != [] {
      var front := stream[..|stream| - 1];
      assert Block(stream, end)[..|stream| - 1] == Block(front, end - 1);
      if frame < end - 1 {
        if Index(capacity, frame) == Index(capacity, end - 1) {
          NearSlots(capacity, frame, end - 1);
        }
        SlotIsStream(capacity, start, front, frame);
      }
    }
  }

  // The frame up to which the ring believes it has been written: it starts at 0, so a stream that
  // ends before frame 0 ends earlier than the ring thinks.
  function Latest(start: int, stream: seq<real>): int {
    if start + |stream| > 0 then start + |stream| else 0
  }

  predicate Exact(capacity: nat, start: int, stream: seq<real>, frame: int)
    requires capacity > 0
  {
    Slot(capacity, Block(stream, start + |stream|), Index(capacity, frame)) == Stream(start, stream, frame)
  }

  // Every frame that may be read gives the stream's sample.
  ghost predicate Faithful(capacity: nat, start: int, stream: seq<real>)
    requires capacity > 0
  {
    forall frame :: Latest(start, stream) - capacity <= frame < Latest(start, stream) ==>
      Exact(capacity, start, stream, frame)
  }

  lemma ReadsAreStream(capacity: nat, start: int, stream: seq<real>)
    requires capacity > 0 && (start + |stream| >= 0 || start + capacity >= 0)
    ensures Faithful(capacity, start, stream)
  {
    hide Index, Slot, Block;
    var end := start + |stream|;
    forall frame | Latest(start, stream) - capacity <= frame < Latest(start, stream)
      ensures Exact(capacity, start, stream, frame)
    {
      if frame < end {
        SlotIsStream(capacity, start, stream, frame);
      } else {
        SlotIsStream(capacity, start, stream, frame - capacity);
        TurnsShare(capacity, frame - capacity, 1);
      }
    }
  }

  // A stream that ends before frame 0 and began more than a ring's length before it leaves stale
  // samples in frames the ring offers for reading.
  lemma StaleReads(capacity: nat, start: int, stream: seq<real>) returns (frame: int)
    requires capacity > 0 && stream != [] && start + |stream| < 0 && start + capacity < 0
    requires forall i :: 0 <= i < |stream| ==> stream[i] != 0.0
    ensures Latest(start, stream) - capacity <= frame < Latest(start, stream) && !Exact(capacity, start, stream, frame)
  {
    hide Index, Slot, Block;
    var end := start + |stream|;
    if end + capacity > 0 {
      frame := -1;
      SlotIsStream(capacity, start, stream, -1 - capacity);
      TurnsShare(capacity, -1 - capacity, 1);
    } else {
      var turns := IndexTurns(capacity, end - 1);
      frame := Index(capacity, end - 1) - capacity;
      assert frame == end - 1 + capacity * (-turns - 1) by {
        assert capacity * (-turns - 1) == -(capacity * turns) - capacity;
      }
      TurnsShare(capacity, end - 1, -turns - 1);
      SlotIsStream(capacity, start, stream, end - 1);
    }
  }

  // For a far-end signal that is never silent, every read that is granted is the requested slice of
  // the zero-extended stream if and only if the stream reaches frame 0 or starts within one ring's
  // length of it. (Whatever the signal, the condition is enough: ReadsAreStream.)
  lemma FaithfulExactly(capacity: nat, start: int, stream: seq<real>)
    requires capacity > 0 && stream != [] && forall i :: 0 <= i < |stream| ==> stream[i] != 0.0
    ensures Faithful(capacity, start, stream) <==> start + |stream| >= 0 || start + capacity >= 0
  {
    hide Exact, Latest;
    if start + |stream| >= 0 || start + capacity >= 0 {
      ReadsAreStream(capacity, start, stream);
    } else {
      var frame := StaleReads(capacity, start, stream);
    }
  }

  // ---------- a series of writes, end to end ----------

  // A fresh ring that is handed the blocks in turn, each ending where the next begins, holds one
  // stream.
  method WriteSeries(capacity: nat, start: int, blocks: seq<seq<real>>) returns (ring: EchoReferenceCorrelator)
    requires capacity > 0 && blocks != []
    ensures fresh(ring) && ring.Valid() && ring.capacity == capacity && ring.hasReference
    ensures var stream := Flat(blocks);
            ring.writes == Block(stream, start + |stream|) && ring.latestFrame == Latest(start, stream)
  {
    ring := new EchoReferenceCorrelator(capacity);
    var end := start;
    for i := 0 to |blocks|
      invariant fresh(ring) && fresh(ring.samples) && ring.Valid() && ring.capacity == capacity
      invariant end == start + |Flat(blocks[..i])| && ring.writes == Block(Flat(blocks[..i]), end)
      invariant i == 0 ==> ring.latestFrame == 0
      invariant i > 0 ==> ring.hasReference && ring.latestFrame == Latest(start, Flat(blocks[..i]))
    {
      assert blocks[..i + 1][..i] == blocks[..i];
      BlocksJoin(Flat(blocks[..i]), blocks[i], end);
      end := end + |blocks[i]|;
      ring.Write(blocks[i], end);
    }
    assert blocks[..|blocks|] == blocks;
  }

  // Read after such a series: granted exactly within one ring's length of the latest frame, and then
  // the requested slice of the stream.
  method ReadStream(capacity: nat, start: int, blocks: seq<seq<real>>, length: nat, inputEndFrame: int, lag: int)
    returns (found: bool, out: seq<real>)
    requires capacity > 0 && blocks != [] && (start + |Flat(blocks)| >= 0 || start + capacity >= 0)
    ensures var latest := Latest(start, Flat(blocks));
            found <==> inputEndFrame - lag <= latest && inputEndFrame - lag - length >= latest - capacity
    ensures found ==> |out| == length && forall i :: 0 <= i < length ==>
              out[i] == Stream(start, Flat(blocks), inputEndFrame - lag - length + i)
  {
    var ring := WriteSeries(capacity, start, blocks);
    found, out := ring.ReadAligned(length, inputEndFrame, lag);
    ReadsAreStream(capacity, start, Flat(blocks));
    if found {
      forall i | 0 <= i < length
        ensures out[i] == Stream(start, Flat(blocks), inputEndFrame - lag - length + i)
      {
        assert Exact(capacity, start, Flat(blocks), inputEndFrame - lag - length + i);
      }
    }
  }
}
