// The noise worklet as it is shipped: the one-frame delay ring around the adaptive suppressor.
module Suppression {
  import opened Arithmetic
  import opened Blocks
  import opened Complex
  import opened Denoise
  import opened DenoiseRing

  // An estimate the suppressor for transforms of length `n` can work with.
  predicate Ready(noise: Noise, n: nat) {
    |noise.psd| == n / 2 + 1 && NonNegative(noise.psd)
  }

  // The estimate a worklet starts with.
  function FreshNoise(n: nat): (noise: Noise)
    ensures Ready(noise, n)
  {
    Noise(seq(n / 2 + 1, _ => 0.00000001), 0)
  }

  // One frame through the suppressor with this window, as the ring calls it. What is not a frame of
  // the window's length under a fitting estimate never comes up.
  function Suppress(t: Trig, window: seq<real>, n: nat): Suppressor<Noise>
    requires 1 < n && |window| <= n
  {
    (noise: Noise, frame: seq<real>) =>
      if |frame| == |window| && Ready(noise, n) then Suppressed(t, window, n, noise, frame) else (noise, frame)
  }

  lemma SuppressKeepsLength(t: Trig, window: seq<real>, n: nat)
    requires 1 < n && |window| <= n
    ensures KeepsLength(Suppress(t, window, n), |window|)
  {
    hide Suppressed;
    forall noise: Noise, frame: seq<real> | |frame| == |window|
      ensures |Suppress(t, window, n)(noise, frame).1| == |window|
    {
      if Ready(noise, n) {
        SuppressedFits(t, window, n, noise, frame);
      }
    }
  }

  lemma SuppressedFits(t: Trig, window: seq<real>, n: nat, noise: Noise, frame: seq<real>)
    requires 1 < n && |frame| == |window| <= n && Ready(noise, n)
    ensures var (after, out) := Suppressed(t, window, n, noise, frame); Ready(after, n) && |out| == |frame|
  {
  }

  lemma FrameLength(x: seq<real>, n: nat, k: nat)
    requires n * (k + 1) <= |x|
    ensures |Frame(x, n, k)| == n
  {
    MulMono(n, k, k + 1);
  }

  ghost function EstimateNext(t: Trig, window: seq<real>, n: nat, before: Noise, frame: seq<real>): (e: Noise)
    requires 1 < n && |frame| == |window| <= n && Ready(before, n)
    ensures Ready(e, n)
  {
    SuppressedFits(t, window, n, before, frame);
    Suppressed(t, window, n, before, frame).0
  }

  // The estimate after the first `count` frames of a stream.
  ghost function EstimateAfter(t: Trig, window: seq<real>, n: nat, initial: Noise, x: seq<real>, count: nat): (e: Noise)
    requires 1 < n && |window| <= n && Ready(initial, n) && |window| * count <= |x|
    ensures Ready(e, n)
  {
    if count == 0 then initial
    else
      var k: nat := count - 1;
      MulMono(|window|, k, count);
      FrameLength(x, |window|, k);
      EstimateNext(t, window, n, EstimateAfter(t, window, n, initial, x, k), Frame(x, |window|, k))
  }

  lemma {:induction false} StateIsEstimate(t: Trig, window: seq<real>, n: nat, initial: Noise, x: seq<real>, count: nat)
    requires 1 < n && |window| <= n && Ready(initial, n) && |window| * count <= |x|
    ensures StateAfter(Suppress(t, window, n), initial, |window|, x, count) ==
            EstimateAfter(t, window, n, initial, x, count)
  {
    hide Suppressed, Frame;
    if count > 0 {
      MulMono(|window|, count - 1, count);
      StateIsEstimate(t, window, n, initial, x, count - 1);
      FrameLength(x, |window|, count - 1);
    }
  }

  // The sample at position `i` of what the worklet plays: dry during the first frame, and from then
  // on the sample one frame earlier, windowed, transformed, weighted with the gains of the estimate
  // that the frames before it have left, and transformed back.
  ghost function Cleared(t: Trig, window: seq<real>, n: nat, initial: Noise, x: seq<real>, i: nat): real
    requires 1 < n && 0 < |window| <= n && Ready(initial, n) && i < |x|
  {
    if i < |window| then x[i]
    else
      BlockBefore(|window|, i);
      var k := i / |window| - 1;
      MulMono(|window|, k, k + 1);
      var frame := Frame(x, |window|, k);
      var estimate := EstimateAfter(t, window, n, initial, x, k);
      FrameLength(x, |window|, k);
      SuppressedFits(t, window, n, estimate, frame);
      Suppressed(t, window, n, estimate, frame).1[i % |window|]
  }

  lemma RingIsCleared(t: Trig, window: seq<real>, n: nat, initial: Noise, x: seq<real>, i: nat)
    requires 1 < n && 0 < |window| <= n && Ready(initial, n) && i < |x|
    ensures KeepsLength(Suppress(t, window, n), |window|)
    ensures Expected(Suppress(t, window, n), initial, |window|, x, i) == Cleared(t, window, n, initial, x, i)
  {
    SuppressKeepsLength(t, window, n);
    if i >= |window| {
      BlockBefore(|window|, i);
      var k := i / |window| - 1;
      MulMono(|window|, k, k + 1);
      FrameLength(x, |window|, k);
      StateIsEstimate(t, window, n, initial, x, k);
      hide KeepsLength, Suppressed, Frame, StateAfter, EstimateAfter;
    }
  }

  // The whole worklet on a stream that arrives in blocks of any lengths, from the start.
  method CleanStream(t: Trig, window: seq<real>, n: nat, blocks: seq<seq<real>>) returns (output: seq<real>)
    requires 1 < n && 0 < |window| <= n
    ensures |output| == |Flat(blocks)|
    ensures forall i :: 0 <= i < |output| ==>
              output[i] == Cleared(t, window, n, FreshNoise(n), Flat(blocks), i)
  {
    SuppressKeepsLength(t, window, n);
    ghost var denoise, initial, size := Suppress(t, window, n), FreshNoise(n), |window|;
    var ring := new RnnoiseProcessor<Noise>(|window|, Suppress(t, window, n), FreshNoise(n));
    output := [];
    hide KeepsLength, Suppress, Expected;
    for b := 0 to |blocks|
      invariant fresh(ring) && fresh(ring.inputRing) && fresh(ring.outputRing) && ring.Valid() && ring.enabled
      invariant ring.denoise == denoise && ring.initial == initial && ring.frameSize == size
      invariant ring.heard == Flat(blocks[..b]) && |output| == |ring.heard|
      invariant Emits(denoise, initial, size, ring.heard, 0, output)
    {
      assert blocks[..b + 1][..b] == blocks[..b];
      ghost var before := ring.heard;
      var more := ring.Process(blocks[b]);
      EmitsJoin(denoise, initial, size, before, blocks[b], output, more);
      output := output + more;
    }
    assert blocks[..|blocks|] == blocks;
    forall i | 0 <= i < |output|
      ensures output[i] == Cleared(t, window, n, FreshNoise(n), Flat(blocks), i)
    {
      RingIsCleared(t, window, n, initial, Flat(blocks), i);
    }
  }

  lemma EmitsJoin(denoise: Suppressor<Noise>, initial: Noise, n: nat, x: seq<real>, more: seq<real>, output: seq<real>,
                  next: seq<real>)
    requires n > 0 && KeepsLength(denoise, n) && |output| == |x| && |next| == |more|
    requires Emits(denoise, initial, n, x, 0, output) && Emits(denoise, initial, n, x + more, |x|, next)
    ensures Emits(denoise, initial, n, x + more, 0, output + next)
  {
    hide KeepsLength, Expected;
    var both := output + next;
    forall k: nat | k < |both|
      ensures both[k] == Expected(denoise, initial, n, x + more, k)
    {
      if k < |x| {
        ExpectedStable(denoise, initial, n, x, more, k);
        assert output[k] == Expected(denoise, initial, n, x, 0 + k);
      } else {
        assert next[k - |x|] == Expected(denoise, initial, n, x + more, |x| + (k - |x|));
      }
    }
  }
}
