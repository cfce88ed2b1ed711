// The one-frame delay ring around the noise suppressor.
module DenoiseRing {
  import opened Arithmetic

  // One frame through the suppressor: its adaptive state and the frame in, both out.
  type Suppressor<!S> = (S, seq<real>) -> (S, seq<real>)

  ghost predicate KeepsLength<S(!new)>(denoise: Suppressor<S>, n: nat) {
    forall s: S, frame: seq<real> :: |frame| == n ==> |denoise(s, frame).1| == n
  }

  function Frame(x: seq<real>, n: nat, k: nat): seq<real>
    requires n * (k + 1) <= |x|
  {
    MulMono(n, k, k + 1);
    x[n * k..n * (k + 1)]
  }

  // The suppressor's state after the first `count` frames of a stream.
  ghost function StateAfter<S>(denoise: Suppressor<S>, initial: S, n: nat, x: seq<real>, count: nat): S
    requires n * count <= |x|
  {
    if count == 0 then initial
    else
      MulMono(n, count - 1, count);
      denoise(StateAfter(denoise, initial, n, x, count - 1), Frame(x, n, count - 1)).0
  }

  ghost function Cleaned<S>(denoise: Suppressor<S>, initial: S, n: nat, x: seq<real>, k: nat): seq<real>
    requires n * (k + 1) <= |x|
  {
    MulMono(n, k, k + 1);
    denoise(StateAfter(denoise, initial, n, x, k), Frame(x, n, k)).1
  }

  // The output sample at position `i` of a stream: dry during the first frame, and from then on the
  // cleaned form of the sample one frame earlier.
  ghost function Expected<S(!new)>(denoise: Suppressor<S>, initial: S, n: nat, x: seq<real>, i: nat): real
    requires n > 0 && i < |x| && KeepsLength(denoise, n)
  {
    if i < n then x[i]
    else
      BlockBefore(n, i);
      Cleaned(denoise, initial, n, x, i / n - 1)[i % n]
  }

  lemma BlockBefore(n: nat, i: nat)
    requires 0 < n <= i
    ensures i / n > 0 && n * (i / n - 1 + 1) <= i && 0 <= i % n < n
  {
    assert i == n * (i / n) + i % n;
  }

  // What is already out does not depend on what comes in later.
  lemma {:induction false} StateStable<S>(denoise: Suppressor<S>, initial: S, n: nat, x: seq<real>, more: seq<real>,
                                          count: nat)
    requires n * count <= |x|
    ensures StateAfter(denoise, initial, n, x + more, count) == StateAfter(denoise, initial, n, x, count)
  {
    if count > 0 {
      MulMono(n, count - 1, count);
      StateStable(denoise, initial, n, x, more, count - 1);
      assert Frame(x + more, n, count - 1) == Frame(x, n, count - 1);
    }
  }

  lemma CleanedStable<S>(denoise: Suppressor<S>, initial: S, n: nat, x: seq<real>, more: seq<real>, k: nat)
    requires n * (k + 1) <= |x|
    ensures Cleaned(denoise, initial, n, x + more, k) == Cleaned(denoise, initial, n, x, k)
  {
    MulMono(n, k, k + 1);
    StateStable(denoise, initial, n, x, more, k);
    assert Frame(x + more, n, k) == Frame(x, n, k);
    hide StateAfter, Frame;
  }

  lemma ExpectedStable<S(!new)>(denoise: Suppressor<S>, initial: S, n: nat, x: seq<real>, more: seq<real>, i: nat)
    requires n > 0 && i < |x| && KeepsLength(denoise, n)
    ensures Expected(denoise, initial, n, x + more, i) == Expected(denoise, initial, n, x, i)
  {
    if i >= n {
      BlockBefore(n, i);
      CleanedStable(denoise, initial, n, x, more, i / n - 1);
    }
  }

  // `output` is the stream's output from position `from` on.
  ghost predicate Emits<S(!new)>(denoise: Suppressor<S>, initial: S, n: nat, x: seq<real>, from: nat, output: seq<real>)
    requires n > 0 && KeepsLength(denoise, n)
  {
    from + |output| <= |x| && forall k :: 0 <= k < |output| ==> output[k] == Expected(denoise, initial, n, x, from + k)
  }

  lemma EmitsMore<S(!new)>(denoise: Suppressor<S>, initial: S, n: nat, x: seq<real>, sample: real, from: nat,
                                          output: seq<real>, out: real)
    requires n > 0 && KeepsLength(denoise, n)
    requires Emits(denoise, initial, n, x, from, output) && from + |output| == |x|
    requires out == Expected(denoise, initial, n, x + [sample], |x|)
    ensures Emits(denoise, initial, n, x + [sample], from, output + [out])
  {
    hide Expected, KeepsLength;
    var y := x + [sample];
    forall k: nat | k < |output| + 1
      ensures (output + [out])[k] == Expected(denoise, initial, n, y, from + k)
    {
      if k < |output| {
        ExpectedStable(denoise, initial, n, x, [sample], from + k);
      }
    }
  }

  // With a suppressor that changes nothing, the output is the input one frame late; before that the
  // first frame comes out dry, so it is heard twice.
  lemma FirstFrameTwice<S(!new)>(denoise: Suppressor<S>, initial: S, n: nat, x: seq<real>, i: nat)
    requires n > 0 && i < |x| && KeepsLength(denoise, n)
    requires forall s: S, frame: seq<real> :: denoise(s, frame).1 == frame
    ensures Expected(denoise, initial, n, x, i) == if i < n then x[i] else x[i - n]
  {
    if i >= n {
      BlockBefore(n, i);
      var k := i / n - 1;
      assert i == n * (k + 1) + i % n && n * (k + 1) == n * k + n;
    }
  }

  class RnnoiseProcessor<S(!new)> {
    const frameSize: nat
    const denoise: Suppressor<S>
    const initial: S
    var suppressor: S
    var enabled: bool
    const inputRing: array<real>
    const outputRing: array<real>
    var ringPos: nat
    var filled: nat
    ghost var heard: seq<real>   // what came in since the last reset
    ghost var blocks: nat        // frames completed since then

    ghost predicate Valid()
      reads this, inputRing, outputRing
    {
      && frameSize > 0 && KeepsLength(denoise, frameSize)
      && inputRing != outputRing && inputRing.Length == outputRing.Length == frameSize
      && ringPos < frameSize && |heard| == frameSize * blocks + ringPos
      && inputRing[..ringPos] == heard[frameSize * blocks..]
      && filled == (if blocks > 0 then frameSize else 0)
      && suppressor == StateAfter(denoise, initial, frameSize, heard, blocks)
      && (blocks > 0 ==> outputRing[..] == Cleaned(denoise, initial, frameSize, heard, blocks - 1))
    }

    constructor (frameSize: nat, denoise: Suppressor<S>, initial: S)
      requires frameSize > 0 && KeepsLength(denoise, frameSize)
      ensures Valid() && heard == [] && enabled
      ensures this.frameSize == frameSize && this.denoise == denoise && this.initial == initial
      ensures fresh(inputRing) && fresh(outputRing)
    {
      this.frameSize, this.denoise, this.initial := frameSize, denoise, initial;
      suppressor, enabled := initial, true;
      inputRing := new real[frameSize](_ => 0.0);
      outputRing := new real[frameSize](_ => 0.0);
      ringPos, filled, heard, blocks := 0, 0, [], 0;
    }

    method SetEnabled(on: bool)
      requires Valid()
      modifies this`enabled
      ensures Valid() && enabled == on
    {
      enabled := on;
    }

    method Reset()
      requires Valid()
      modifies this, inputRing, outputRing
      ensures Valid() && heard == [] && enabled == old(enabled)
    {
      forall i | 0 <= i < frameSize {
        inputRing[i] := 0.0;
      }
      forall i | 0 <= i < frameSize {
        outputRing[i] := 0.0;
      }
      suppressor, ringPos, filled, heard, blocks := initial, 0, 0, [], 0;
    }

    method Process(input: seq<real>) returns (output: seq<real>)
      requires Valid()
      modifies this, inputRing, outputRing
      ensures Valid() && enabled == old(enabled)
      ensures !enabled ==> output == input && heard == old(heard)
      ensures enabled ==>
                heard == old(heard) + input && |output| == |input| &&
                Emits(denoise, initial, frameSize, heard, |old(heard)|, output)
    {
      if !enabled {
        return input;
      }
      output := [];
      ghost var start := heard;
      assert KeepsLength(denoise, frameSize) && frameSize > 0;
      assert start + input[..0] == start;
      assert Emits(denoise, initial, frameSize, heard, |start|, output);
      hide Valid, Emits, KeepsLength, Expected;
      for i := 0 to |input|
        invariant Valid() && enabled && frameSize > 0 && KeepsLength(denoise, frameSize)
        invariant heard == start + input[..i] && |output| == i
        invariant Emits(denoise, initial, frameSize, heard, |start|, output)
      {
        ghost var before := heard;
        var sample := Tick(input[i]);
        EmitsMore(denoise, initial, frameSize, before, input[i], |start|, output, sample);
        output := output + [sample];
      }
      assert input[..|input|] == input;
    }

    // One sample through the rings.
    method Tick(sample: real) returns (out: real)
      requires Valid()
      modifies this, inputRing, outputRing
      ensures Valid() && enabled == old(enabled) && heard == old(heard) + [sample]
      ensures out == Expected(denoise, initial, frameSize, heard, |heard| - 1)
    {
      out := if filled >= frameSize then outputRing[ringPos] else sample;
      SlotIsExpected(sample);
      hide Valid, KeepsLength, Expected;
      Push(sample);
    }

    method Push(sample: real)
      requires Valid()
      modifies this, inputRing, outputRing
      ensures Valid() && enabled == old(enabled) && heard == old(heard) + [sample]
    {
      RingsStable(sample);
      hide KeepsLength, StateAfter, Cleaned;
      ghost var done: nat := frameSize * blocks;
      ghost var longer := heard + [sample];
      assert longer[done..] == heard[done..] + [sample];
      inputRing[ringPos] := sample;
      assert inputRing[..ringPos + 1] == inputRing[..ringPos] + [sample];
      ringPos := ringPos + 1;
      heard := longer;
      if ringPos >= frameSize {
        FrameIsTail(done);
        CompleteFrame();
      }
    }

    lemma FrameIsTail(done: nat)
      requires frameSize == inputRing.Length == ringPos && done == frameSize * blocks && |heard| == done + frameSize
      requires inputRing[..ringPos] == heard[done..]
      ensures |heard| == frameSize * (blocks + 1) && inputRing[..] == Frame(heard, frameSize, blocks)
    {
      assert frameSize * (blocks + 1) == frameSize * blocks + frameSize;
    }

    lemma SlotIsExpected(sample: real)
      requires Valid()
      ensures (if filled >= frameSize then outputRing[ringPos] else sample) ==
              Expected(denoise, initial, frameSize, heard + [sample], |heard|)
    {
      hide KeepsLength, StateAfter, Cleaned;
      var n, longer := frameSize, heard + [sample];
      DivUnique(n, blocks, ringPos);
      assert |heard| / n == blocks && |heard| % n == ringPos;
      if blocks > 0 {
        RingsStable(sample);
        MulMono(n, 1, blocks);
        BlockBefore(n, |heard|);
        assert blocks - 1 + 1 == blocks;
        assert outputRing[ringPos] == outputRing[..][ringPos];
      } else {
        assert |heard| == ringPos;
      }
    }

    lemma RingsStable(sample: real)
      requires Valid()
      ensures suppressor == StateAfter(denoise, initial, frameSize, heard + [sample], blocks)
      ensures blocks > 0 ==>
                frameSize * (blocks - 1 + 1) <= |heard| &&
                outputRing[..] == Cleaned(denoise, initial, frameSize, heard + [sample], blocks - 1)
    {
      hide KeepsLength, StateAfter, Cleaned;
      StateStable(denoise, initial, frameSize, heard, [sample], blocks);
      if blocks > 0 {
        assert blocks - 1 + 1 == blocks;
        CleanedStable(denoise, initial, frameSize, heard, [sample], blocks - 1);
      }
    }

    method CompleteFrame()
      requires frameSize > 0 && KeepsLength(denoise, frameSize)
      requires inputRing != outputRing && inputRing.Length == outputRing.Length == frameSize == ringPos
      requires |heard| == frameSize * (blocks + 1) && inputRing[..] == Frame(heard, frameSize, blocks)
      requires frameSize * blocks <= |heard| && suppressor == StateAfter(denoise, initial, frameSize, heard, blocks)
      modifies this, outputRing
      ensures Valid() && enabled == old(enabled) && heard == old(heard)
    {
      hide KeepsLength;
      ringPos := 0;
      filled := frameSize;
      var cleaned := DenoiseFrame(inputRing[..]);
      forall k | 0 <= k < frameSize {
        outputRing[k] := cleaned[k];
      }
      assert outputRing[..] == cleaned;
      blocks := blocks + 1;
      assert heard[frameSize * blocks..] == [];
      assert inputRing[..0] == [];
    }

    method DenoiseFrame(frame: seq<real>) returns (cleaned: seq<real>)
      requires |frame| == frameSize && KeepsLength(denoise, frameSize)
      modifies this`suppressor
      ensures (suppressor, cleaned) == denoise(old(suppressor), frame) && |cleaned| == frameSize
    {
      var after := denoise(suppressor, frame);
      suppressor, cleaned := after.0, after.1;
    }
  }
}
