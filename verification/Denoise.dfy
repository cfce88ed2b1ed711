// One frame through the noise suppressor: window, transform, a gain for every bin, and back.
module Denoise {
  import opened Arithmetic
  import opened Complex
  import opened Fft

  function Windowed(frame: seq<real>, window: seq<real>, i: nat): real
    requires i < |frame| == |window|
  {
    frame[i] * window[i]
  }

  // The windowed frame as complex samples, with zeros up to the length of the transform.
  function Padded(frame: seq<real>, window: seq<real>, n: nat): seq<C>
    requires |frame| == |window|
  {
    seq(n, i requires 0 <= i < n => if i < |frame| then C(Windowed(frame, window, i), 0.0) else ZERO)
  }

  // A bin and its mirror image share a gain.
  function GainAt(gains: seq<real>, n: nat, k: nat): real
    requires |gains| == n / 2 + 1 && k < n
  {
    gains[if k <= n / 2 then k else n - k]
  }

  function Shaped(x: seq<C>, gains: seq<real>): seq<C>
    requires |gains| == |x| / 2 + 1
  {
    seq(|x|, k requires 0 <= k < |x| => Scale(GainAt(gains, |x|, k), x[k]))
  }

  // The frame's samples after the gains, before the final scaling.
  function Filtered(t: Trig, frame: seq<real>, window: seq<real>, gains: seq<real>, n: nat): seq<C>
    requires |frame| == |window| && |gains| == n / 2 + 1
  {
    Synthesis(t, Shaped(Spectrum(t, Padded(frame, window, n)), gains))
  }

  method FillFrame(re: array<real>, im: array<real>, frame: seq<real>, window: seq<real>)
    requires re != im && re.Length == im.Length >= |frame| == |window|
    modifies re, im
    ensures Zip(re[..], im[..]) == Padded(frame, window, re.Length)
  {
    hide Windowed;
    for i := 0 to re.Length
      invariant forall k :: 0 <= k < i ==> re[k] == 0.0 && im[k] == 0.0
    {
      re[i] := 0.0;
      im[i] := 0.0;
    }
    for i := 0 to |frame|
      invariant forall k :: 0 <= k < i ==> re[k] == Windowed(frame, window, k)
      invariant forall k :: i <= k < re.Length ==> re[k] == 0.0
      invariant forall k :: 0 <= k < re.Length ==> im[k] == 0.0
    {
      re[i] := Windowed(frame, window, i);
    }
  }

  // ---------- the adaptive rule behind the gains ----------

  const WARMUP_FRAMES: nat := 25
  const GAIN_FLOOR: real := 0.1

  // The running estimate of the noise in each bin, and how many frames fed it.
  datatype Noise = Noise(psd: seq<real>, frames: nat)

  predicate NonNegative(s: seq<real>) {
    forall i :: 0 <= i < |s| ==> s[i] >= 0.0
  }

  function Power(c: C): (p: real)
    ensures p >= 0.0
  {
    c.re * c.re + c.im * c.im
  }

  // The power of the first `count` bins.
  function Powers(x: seq<C>, count: nat): (p: seq<real>)
    requires count <= |x|
    ensures |p| == count && NonNegative(p)
  {
    seq(count, k requires 0 <= k < count => Power(x[k]))
  }

  function Total(s: seq<real>): real {
    if s == [] then 0.0 else Total(s[..|s| - 1]) + s[|s| - 1]
  }

  function Mean(s: seq<real>): real
    requires s != []
  {
    Total(s) / |s| as real
  }

  // A frame feeds the estimate while it warms up, or when it is no louder than 1.8 times the noise.
  predicate NoiseLike(noise: Noise, powers: seq<real>)
    requires |powers| == |noise.psd| > 0
  {
    noise.frames < WARMUP_FRAMES || Mean(powers) < Mean(noise.psd) * 1.8
  }

  function Tracked(psd: real, power: real, noiseLike: bool): real {
    if noiseLike then 0.95 * psd + 0.05 * power
    else if power < psd then 0.8 * psd + 0.2 * power
    else psd
  }

  function GainFor(psd: real, power: real): real
    requires psd >= 0.0 && power >= 0.0
  {
    var snr := power / (psd + 0.000000000001);
    var wiener := 1.0 - 1.0 / (snr + 0.000001);
    if wiener < GAIN_FLOOR then GAIN_FLOOR else wiener
  }

  lemma TrackedBetween(psd: real, power: real, noiseLike: bool)
    requires psd >= 0.0 && power >= 0.0
    ensures var after := Tracked(psd, power, noiseLike);
            && 0.0 <= after && (psd <= after <= power || power <= after <= psd || after == psd)
            && (!noiseLike ==> after <= psd)
  {
  }

  lemma GainBounds(psd: real, power: real)
    requires psd >= 0.0 && power >= 0.0
    ensures GAIN_FLOOR <= GainFor(psd, power) < 1.0
  {
  }

  function PsdAfter(noise: Noise, powers: seq<real>): (psd: seq<real>)
    requires |powers| == |noise.psd| > 0 && NonNegative(noise.psd) && NonNegative(powers)
    ensures |psd| == |noise.psd| && NonNegative(psd)
  {
    seq(|powers|, k requires 0 <= k < |powers| => Tracked(noise.psd[k], powers[k], NoiseLike(noise, powers)))
  }

  function GainsFor(noise: Noise, powers: seq<real>): (gains: seq<real>)
    requires |powers| == |noise.psd| > 0 && NonNegative(noise.psd) && NonNegative(powers)
    ensures |gains| == |powers|
  {
    var psd := PsdAfter(noise, powers);
    seq(|powers|, k requires 0 <= k < |powers| => GainFor(psd[k], powers[k]))
  }

  function NoiseAfter(noise: Noise, powers: seq<real>): Noise
    requires |powers| == |noise.psd| > 0 && NonNegative(noise.psd) && NonNegative(powers)
  {
    Noise(PsdAfter(noise, powers), if NoiseLike(noise, powers) then noise.frames + 1 else noise.frames)
  }

  // What the rule says of one bin.
  lemma RuleAt(noise: Noise, powers: seq<real>, k: nat)
    requires k < |powers| == |noise.psd| && NonNegative(noise.psd) && NonNegative(powers)
    ensures PsdAfter(noise, powers)[k] == Tracked(noise.psd[k], powers[k], NoiseLike(noise, powers)) >= 0.0
    ensures noise.psd[k] >= 0.0 && powers[k] >= 0.0
    ensures GainsFor(noise, powers)[k] == GainFor(PsdAfter(noise, powers)[k], powers[k])
  {
    hide Tracked, GainFor, NoiseLike;
    var psd := PsdAfter(noise, powers);
    assert psd[k] >= 0.0;
  }

  // ---------- the rule over many frames ----------

  ghost predicate Spectra(frames: seq<seq<real>>, bins: nat) {
    forall i :: 0 <= i < |frames| ==> |frames[i]| == bins && NonNegative(frames[i])
  }

  // The estimate after frames with these powers.
  ghost function Heard(noise: Noise, frames: seq<seq<real>>): (after: Noise)
    requires noise.psd != [] && NonNegative(noise.psd) && Spectra(frames, |noise.psd|)
    ensures |after.psd| == |noise.psd| && NonNegative(after.psd)
  {
    if frames == [] then noise else NoiseAfter(Heard(noise, frames[..|frames| - 1]), frames[|frames| - 1])
  }

  // However the frames come, the estimate of a bin stays within every range that holds its start and
  // the bin's power in all of them; and the first 25 frames all count as noise.
  lemma {:induction false} EstimateStaysWithin(noise: Noise, frames: seq<seq<real>>, k: nat, low: real, high: real)
    requires k < |noise.psd| && NonNegative(noise.psd) && Spectra(frames, |noise.psd|)
    requires low <= noise.psd[k] <= high && forall i :: 0 <= i < |frames| ==> low <= frames[i][k] <= high
    ensures var after := Heard(noise, frames);
            && low <= after.psd[k] <= high
            && noise.frames <= after.frames <= noise.frames + |frames|
            && (after.frames == noise.frames + |frames| || after.frames >= WARMUP_FRAMES)
  {
    hide Tracked, Mean;
    if frames != [] {
      var front, last := frames[..|frames| - 1], frames[|frames| - 1];
      EstimateStaysWithin(noise, front, k, low, high);
      var before := Heard(noise, front);
      assert NonNegative(last) && last[k] >= 0.0 && before.psd[k] >= 0.0;
      TrackedBetween(before.psd[k], last[k], NoiseLike(before, last));
    }
  }

  lemma ScaledPower(g: real, c: C)
    requires GAIN_FLOOR <= g < 1.0
    ensures GAIN_FLOOR * GAIN_FLOOR * Power(c) <= Power(Scale(g, c)) <= Power(c)
  {
    assert Power(Scale(g, c)) == g * g * Power(c) by {
      assert (g * c.re) * (g * c.re) == g * g * (c.re * c.re);
      assert (g * c.im) * (g * c.im) == g * g * (c.im * c.im);
    }
    hide Power;
    SquareBetween(g, Power(c));
  }

  lemma SquareBetween(g: real, p: real)
    requires GAIN_FLOOR <= g < 1.0 && p >= 0.0
    ensures GAIN_FLOOR * GAIN_FLOOR * p <= g * g * p <= p
  {
    ScaleMono(GAIN_FLOOR, g, GAIN_FLOOR);
    ScaleMono(GAIN_FLOOR, g, g);
    ScaleMono(g, 1.0, g);
    ScaleMono(GAIN_FLOOR * GAIN_FLOOR, g * g, p);
    ScaleMono(g * g, 1.0, p);
  }

  lemma ScaleMono(a: real, b: real, c: real)
    requires a <= b && c >= 0.0
    ensures a * c <= b * c
  {
    assert (b - a) * c >= 0.0;
  }

  lemma {:induction false} TotalMono(a: seq<real>, b: seq<real>)
    requires |a| == |b| && forall k :: 0 <= k < |a| ==> a[k] <= b[k]
    ensures Total(a) <= Total(b)
  {
    if a != [] {
      TotalMono(a[..|a| - 1], b[..|b| - 1]);
    }
  }

  // Whatever the estimate, the gains amplify no bin and cut none by more than the floor, so a frame
  // never leaves with more power than it came with.
  lemma NeverAmplifies(noise: Noise, x: seq<C>)
    requires |x| > 0 && |x| % 2 == 0 && |noise.psd| == |x| / 2 + 1 && NonNegative(noise.psd)
    ensures var y := Shaped(x, GainsFor(noise, Powers(x, |x| / 2 + 1)));
            && (forall k :: 0 <= k < |x| ==> GAIN_FLOOR * GAIN_FLOOR * Power(x[k]) <= Power(y[k]) <= Power(x[k]))
            && Total(Powers(y, |x|)) <= Total(Powers(x, |x|))
  {
    hide Power, Scale, GainFor, Tracked, NoiseLike, Total;
    var n := |x|;
    var powers := Powers(x, n / 2 + 1);
    var gains := GainsFor(noise, powers);
    var y := Shaped(x, gains);
    forall k | 0 <= k < n
      ensures GAIN_FLOOR * GAIN_FLOOR * Power(x[k]) <= Power(y[k]) <= Power(x[k])
    {
      var j: nat := if k <= n / 2 then k else n - k;
      RuleAt(noise, powers, j);
      GainBounds(PsdAfter(noise, powers)[j], powers[j]);
      assert y[k] == Scale(gains[j], x[k]);
      ScaledPower(gains[j], x[k]);
    }
    TotalMono(Powers(y, n), Powers(x, n));
  }

  // The whole frame: the noise estimate after it, and the scaled real part of window, transform, gains
  // and inverse transform.
  function Suppressed(t: Trig, window: seq<real>, n: nat, noise: Noise, frame: seq<real>): (Noise, seq<real>)
    requires n > 0 && |frame| == |window| <= n && |noise.psd| == n / 2 + 1 <= n && NonNegative(noise.psd)
  {
    var powers := Powers(Spectrum(t, Padded(frame, window, n)), n / 2 + 1);
    var filtered := Filtered(t, frame, window, GainsFor(noise, powers), n);
    (NoiseAfter(noise, powers),
     seq(|frame|, i requires 0 <= i < |frame| => filtered[i].re * (2.0 / n as real)))
  }

  // ---------- one frame ----------

  // Bin `p` has its gain once the loop has passed its own index or its mirror image's.
  predicate Applied(n: nat, k: nat, p: nat) {
    if p <= n / 2 then p < k else n - p < k
  }

  method GainCell(re: array<real>, im: array<real>, p: nat, gain: real, ghost c: C)
    requires re != im && re.Length == im.Length && p < re.Length && Holds(re, im, p, c)
    modifies re, im
    ensures Holds(re, im, p, Scale(gain, c))
    ensures forall q :: 0 <= q < re.Length && q != p ==> re[q] == old(re[q]) && im[q] == old(im[q])
  {
    re[p] := re[p] * gain;
    im[p] := im[p] * gain;
  }

  // The bins below `k` and their mirror images have their gains, the others not yet.
  ghost predicate Scaled(re: array<real>, im: array<real>, x: seq<C>, gains: seq<real>, k: nat)
    requires re.Length == im.Length == |x| && |gains| == |x| / 2 + 1
    reads re, im
  {
    forall p: nat :: p < |x| ==> Holds(re, im, p,
                                       if Applied(|x|, k, p) then Scale(GainAt(gains, |x|, p), x[p]) else x[p])
  }

  method ScaleBin(re: array<real>, im: array<real>, k: nat, gain: real, ghost x: seq<C>, ghost gains: seq<real>)
    requires re != im && re.Length == im.Length == |x| && |x| % 2 == 0 && |gains| == |x| / 2 + 1
    requires k <= |x| / 2 && k < |x| && gain == gains[k] && Scaled(re, im, x, gains, k)
    modifies re, im
    ensures Scaled(re, im, x, gains, k + 1)
  {
    hide Scale;
    var n := re.Length;
    assert !Applied(n, k, k) && Applied(n, k + 1, k);
    GainCell(re, im, k, gain, x[k]);
    if 0 < k < n / 2 {
      GainCell(re, im, n - k, gain, x[n - k]);
    }
  }

  lemma ScaledThrough(re: array<real>, im: array<real>, x: seq<C>, gains: seq<real>)
    requires re.Length == im.Length == |x| && |gains| == |x| / 2 + 1 && Scaled(re, im, x, gains, |x| / 2 + 1)
    ensures Zip(re[..], im[..]) == Shaped(x, gains)
  {
    hide Scale;
  }

  lemma BinUntouched(re: array<real>, im: array<real>, x: seq<C>, gains: seq<real>, k: nat)
    requires re.Length == im.Length == |x| && |gains| == |x| / 2 + 1 && Scaled(re, im, x, gains, k)
    requires k <= |x| / 2 && k < |x|
    ensures Power(C(re[k], im[k])) == Power(x[k])
  {
    assert !Applied(|x|, k, k);
    hide Scale, Power;
  }

  lemma NoneScaled(re: array<real>, im: array<real>, gains: seq<real>)
    requires re.Length == im.Length && |gains| == re.Length / 2 + 1
    ensures Scaled(re, im, Zip(re[..], im[..]), gains, 0)
  {
    hide Scale;
  }

  class FrameSuppressor {
    const re: array<real>
    const im: array<real>
    const noisePsd: array<real>
    var noiseFrames: nat

    ghost predicate Valid()
      reads this, noisePsd
    {
      && re != im && re != noisePsd && im != noisePsd
      && re.Length == im.Length > 0 && re.Length % 2 == 0 && noisePsd.Length == re.Length / 2 + 1
      && NonNegative(noisePsd[..])
    }

    ghost function State(): Noise
      reads this, noisePsd
    {
      Noise(noisePsd[..], noiseFrames)
    }

    constructor (n: nat)
      requires n > 0 && n % 2 == 0
      ensures Valid() && re.Length == n && fresh(re) && fresh(im) && fresh(noisePsd)
      ensures State() == Noise(seq(n / 2 + 1, _ => 0.00000001), 0)
    {
      re := new real[n](_ => 0.0);
      im := new real[n](_ => 0.0);
      noisePsd := new real[n / 2 + 1](_ => 0.00000001);
      noiseFrames := 0;
    }

    // Whether the spectrum in the buffers is noise: its mean power against the estimate's.
    method Judge() returns (noiseLike: bool)
      requires Valid()
      ensures noiseLike == NoiseLike(State(), Powers(Zip(re[..], im[..]), noisePsd.Length))
    {
      hide Power;
      var frameEnergy, noiseEnergy := 0.0, 0.0;
      var bins := noisePsd.Length;
      ghost var powers := Powers(Zip(re[..], im[..]), bins);
      for k := 0 to bins
        invariant frameEnergy == Total(powers[..k]) && noiseEnergy == Total(noisePsd[..k])
      {
        assert powers[..k + 1][..k] == powers[..k] && noisePsd[..k + 1][..k] == noisePsd[..k];
        frameEnergy := frameEnergy + Power(C(re[k], im[k]));
        noiseEnergy := noiseEnergy + noisePsd[k];
      }
      assert powers[..bins] == powers && noisePsd[..bins] == noisePsd[..];
      noiseLike := noiseFrames < WARMUP_FRAMES || frameEnergy / bins as real < noiseEnergy / bins as real * 1.8;
    }

    // The bins below `k` have their new estimate, the others the old one.
    ghost predicate Updated(psd: seq<real>, noise: Noise, powers: seq<real>, k: nat)
      requires |powers| == |noise.psd| > 0 && NonNegative(noise.psd) && NonNegative(powers)
    {
      |psd| == |noise.psd| && forall j :: 0 <= j < |psd| ==>
        psd[j] == (if j < k then PsdAfter(noise, powers) else noise.psd)[j]
    }

    method TrackBin(k: nat, power: real, noiseLike: bool) returns (gain: real)
      requires k < noisePsd.Length && noisePsd[k] >= 0.0 && power >= 0.0
      modifies noisePsd
      ensures noisePsd[k] == Tracked(old(noisePsd[k]), power, noiseLike) >= 0.0
      ensures forall j :: 0 <= j < noisePsd.Length && j != k ==> noisePsd[j] == old(noisePsd[j])
      ensures gain == GainFor(noisePsd[k], power)
    {
      if noiseLike {
        noisePsd[k] := 0.95 * noisePsd[k] + 0.05 * power;
      } else if power < noisePsd[k] {
        noisePsd[k] := 0.8 * noisePsd[k] + 0.2 * power;
      }
      gain := GainFor(noisePsd[k], power);
    }

    // The estimate is brought up to date and every bin scaled with its gain, its mirror image alike.
    method ApplyGains()
      requires Valid()
      modifies this`noiseFrames, re, im, noisePsd
      ensures Valid()
      ensures var powers := Powers(old(Zip(re[..], im[..])), noisePsd.Length);
              && Zip(re[..], im[..]) == Shaped(old(Zip(re[..], im[..])), GainsFor(old(State()), powers))
              && State() == NoiseAfter(old(State()), powers)
    {
      hide Power, NoiseLike, GainFor, Tracked, Scaled, Shaped, PsdAfter, GainsFor, NonNegative;
      ghost var x := Zip(re[..], im[..]);
      ghost var noise := State();
      ghost var powers := Powers(x, noisePsd.Length);
      ghost var gains := GainsFor(noise, powers);
      var noiseLike := Judge();
      assert noiseLike == NoiseLike(noise, powers);
      NoneScaled(re, im, gains);
      for k := 0 to noisePsd.Length
        invariant Scaled(re, im, x, gains, k)
        invariant Updated(noisePsd[..], noise, powers, k) && noiseFrames == noise.frames
      {
        BinUntouched(re, im, x, gains, k);
        RuleAt(noise, powers, k);
        var gain := TrackBin(k, Power(C(re[k], im[k])), noiseLike);
        ScaleBin(re, im, k, gain, x, gains);
      }
      if noiseLike {
        noiseFrames := noiseFrames + 1;
      }
      ScaledThrough(re, im, x, gains);
      assert noisePsd[..] == PsdAfter(noise, powers);
    }

    method ReadOut(count: nat) returns (out: seq<real>)
      requires 0 < re.Length && count <= re.Length
      ensures |out| == count && forall k :: 0 <= k < count ==> out[k] == re[k] * (2.0 / re.Length as real)
    {
      out := [];
      var scale := 2.0 / re.Length as real;
      for i := 0 to count
        invariant |out| == i && forall k :: 0 <= k < i ==> out[k] == re[k] * scale
      {
        out := out + [re[i] * scale];
      }
    }

    method DenoiseFrame(t: Trig, frame: seq<real>, window: seq<real>, ghost bits: nat) returns (out: seq<real>)
      requires Valid() && Lawful(t) && re.Length == Pow2(bits) && |frame| == |window| <= re.Length
      modifies this`noiseFrames, re, im, noisePsd
      ensures Valid()
      ensures (State(), out) == Suppressed(t, window, re.Length, old(State()), frame)
    {
      hide Lawful, Spectrum, Synthesis, Padded, Shaped, GainsFor, NoiseAfter, Power, NonNegative;
      ghost var noise := State();
      FillFrame(re, im, frame, window);
      FftRadix2(t, re, im, bits);
      ghost var powers := Powers(Zip(re[..], im[..]), re.Length / 2 + 1);
      ApplyGains();
      IfftRadix2(t, re, im, bits);
      ghost var y := Zip(re[..], im[..]);
      assert y == Filtered(t, frame, window, GainsFor(noise, powers), re.Length);
      assert powers == Powers(Spectrum(t, Padded(frame, window, re.Length)), re.Length / 2 + 1);
      out := ReadOut(|frame|);
      assert forall k :: 0 <= k < |frame| ==> out[k] == y[k].re * (2.0 / re.Length as real);
      SuppressedIs(t, window, re.Length, noise, frame, out);
    }
  }

  lemma SuppressedIs(t: Trig, window: seq<real>, n: nat, noise: Noise, frame: seq<real>, out: seq<real>)
    requires n > 0 && |frame| == |window| <= n && |noise.psd| == n / 2 + 1 <= n && NonNegative(noise.psd)
    requires var powers := Powers(Spectrum(t, Padded(frame, window, n)), n / 2 + 1);
             var y := Filtered(t, frame, window, GainsFor(noise, powers), n);
             |out| == |frame| && forall k :: 0 <= k < |frame| ==> out[k] == y[k].re * (2.0 / n as real)
    ensures out == Suppressed(t, window, n, noise, frame).1
  {
    hide Spectrum, GainsFor, Padded, NoiseAfter, Shaped;
    var s := Suppressed(t, window, n, noise, frame).1;
    assert |s| == |frame|;
    assert forall k :: 0 <= k < |frame| ==> out[k] == s[k];
  }

  // ---------- nothing is lost by reading the real part only ----------

  lemma {:induction false} SumFirst(f: nat -> C, n: nat)
    requires n > 0
    ensures Sum(f, n) == Add(f(0), Sum((k: nat) => f(k + 1), n - 1))
  {
    var g := (k: nat) => f(k + 1);
    if n == 1 {
      assert Sum(f, 1) == Add(Sum(f, 0), f(0)) && Sum(g, 0) == ZERO;
    } else {
      SumFirst(f, n - 1);
      assert Sum(f, n) == Add(Sum(f, n - 1), f(n - 1));
      assert Sum(g, n - 1) == Add(Sum(g, n - 2), g(n - 2));
    }
  }

  function Mirrored(f: nat -> C, n: nat): nat -> C {
    (k: nat) => f(if k < n then n - 1 - k else 0)
  }

  lemma {:induction false} SumMirrored(f: nat -> C, n: nat)
    ensures Sum(Mirrored(f, n), n) == Sum(f, n)
  {
    if n > 0 {
      var g := Mirrored(f, n);
      SumFirst(g, n);
      SumMirrored(f, n - 1);
      var rest := (k: nat) => g(k + 1);
      SumEqual(rest, Mirrored(f, n - 1), n - 1);
    }
  }

  // A sum whose terms are conjugate in mirrored pairs is real.
  lemma PairedSumIsReal(f: nat -> C, n: nat)
    requires n > 0 && f(0) == Conj(f(0))
    requires forall k: nat :: 0 < k < n ==> f(n - k) == Conj(f(k))
    ensures Sum(f, n).im == 0.0
  {
    hide Sum;
    var tail := (k: nat) => f(k + 1);
    var m := n - 1;
    var mirror := Mirrored(tail, m);
    SumFirst(f, n);
    SumMirrored(tail, m);
    forall k: nat | k < m ensures mirror(k) == Conj(tail(k)) {
      assert mirror(k) == f(n - (k + 1));
    }
    SumConj(tail, mirror, m);
  }

  // Going round the other way conjugates a root of unity.
  lemma TwiddleMirror(t: Trig, n: nat, m: nat, k: nat)
    requires 0 < k < n && Lawful(t)
    ensures Twiddle(t, n, m * (n - k)) == Conj(Twiddle(t, n, m * k))
  {
    hide Lawful, Twiddle;
    assert m * (n - k) + m * k == m * n;
    TwiddleAdd(t, n, m * (n - k), m * k);
    TwiddleTurns(t, n, m);
    TwiddleUnit(t, n, m * k);
    var a, b := Twiddle(t, n, m * (n - k)), Twiddle(t, n, m * k);
    hide Mul, Conj;
    MulAssoc(a, b, Conj(b));
    OneMul(Conj(b));
    MulComm(a, ONE);
    OneMul(a);
  }

  predicate RealSamples(x: seq<C>) {
    forall i :: 0 <= i < |x| ==> x[i].im == 0.0
  }

  lemma RealTerm(a: C, w: C)
    requires a.im == 0.0
    ensures Mul(a, Conj(w)) == Conj(Mul(a, w))
  {
  }

  // The spectrum of real samples is conjugate in mirrored pairs.
  lemma SpectrumMirrors(t: Trig, x: seq<C>, k: nat)
    requires Lawful(t) && RealSamples(x) && 0 < k < |x|
    ensures Dft(t, x, |x| - k) == Conj(Dft(t, x, k))
  {
    hide Lawful, Twiddle, Mul;
    var n := |x|;
    var f := (m: nat) => Term(t, x, 0, 1, n, k, m);
    var g := (m: nat) => Term(t, x, 0, 1, n, n - k, m);
    forall m: nat | m < n ensures g(m) == Conj(f(m)) {
      TwiddleMirror(t, n, m, k);
      RealTerm(Sample(x, 0, 1, m), Twiddle(t, n, m * k));
    }
    SumConj(f, g, n);
  }

  lemma SpectrumAtZero(t: Trig, x: seq<C>)
    requires Lawful(t) && RealSamples(x) && x != []
    ensures Dft(t, x, 0) == Conj(Dft(t, x, 0))
  {
    hide Mul, Lawful;
    var n := |x|;
    var f := (m: nat) => Term(t, x, 0, 1, n, 0, m);
    TwiddleZero(t, n);
    hide Twiddle;
    forall m: nat | m < n ensures f(m) == Conj(f(m)) {
      RealTerm(Sample(x, 0, 1, m), ONE);
      assert m * 0 == 0 && Conj(ONE) == ONE;
    }
    SumConj(f, f, n);
  }

  lemma MirroredProduct(y: C, w: C)
    ensures Mul(Conj(y), Conj(Conj(w))) == Conj(Mul(y, Conj(w)))
  {
  }

  function Mirror(n: nat, k: nat): nat
    requires k < n
  {
    if k == 0 then 0 else n - k
  }

  // Conjugate in mirrored pairs.
  ghost predicate Hermitian(y: seq<C>) {
    forall k :: 0 <= k < |y| ==> y[Mirror(|y|, k)] == Conj(y[k])
  }

  lemma ShapedMirrors(t: Trig, x: seq<C>, gains: seq<real>, k: nat)
    requires Lawful(t) && RealSamples(x) && |gains| == |x| / 2 + 1 && k < |x|
    ensures var y := Shaped(Spectrum(t, x), gains);
            y[Mirror(|x|, k)] == Conj(y[k])
  {
    if k == 0 {
      SpectrumAtZero(t, x);
    } else {
      SpectrumMirrors(t, x, k);
      GainMirrors(gains, |x|, k);
    }
    hide Dft, Lawful, GainAt, Conj, Scale, RealSamples;
    ScaleConj(GainAt(gains, |x|, k), Dft(t, x, k));
  }

  lemma GainMirrors(gains: seq<real>, n: nat, k: nat)
    requires |gains| == n / 2 + 1 && 0 < k < n
    ensures GainAt(gains, n, n - k) == GainAt(gains, n, k)
  {
  }

  lemma ScaleConj(g: real, a: C)
    ensures Scale(g, Conj(a)) == Conj(Scale(g, a))
  {
  }

  // The k-th term of the inverse transform at position j.
  function BackPart(t: Trig, y: seq<C>, j: nat, k: nat): C
    requires y != []
  {
    Mul(At(y, k), Conj(Twiddle(t, |y|, k * j)))
  }

  lemma BackPartMirrors(t: Trig, y: seq<C>, j: nat, k: nat)
    requires Lawful(t) && k < |y| && y[Mirror(|y|, k)] == Conj(y[k])
    ensures BackPart(t, y, j, Mirror(|y|, k)) == Conj(BackPart(t, y, j, k))
  {
    hide Lawful, Mul;
    var n := |y|;
    if k == 0 {
      assert 0 * j == 0;
      TwiddleZero(t, n);
      assert Conj(Conj(ONE)) == Conj(ONE);
    } else {
      TwiddleMirror(t, n, j, k);
      assert j * (n - k) == (n - k) * j && j * k == k * j;
    }
    hide Twiddle;
    MirroredProduct(y[k], Twiddle(t, n, k * j));
  }

  lemma SynthesisIsReal(t: Trig, y: seq<C>, j: nat)
    requires Lawful(t) && Hermitian(y) && j < |y|
    ensures Synthesis(t, y)[j].im == 0.0
  {
    var n := |y|;
    var f := (k: nat) => BackPart(t, y, j, k);
    var g := (k: nat) => Mul(At(y, k), Conj(Twiddle(t, n, k * j)));
    SynthesisAt(t, y, j);
    assert forall k: nat :: k < n ==> f(k) == g(k);
    SumEqual(f, g, n);
    hide Lawful, Synthesis, BackPart, Conj;
    forall k: nat | k < n ensures f(Mirror(n, k)) == Conj(f(k)) {
      BackPartMirrors(t, y, j, k);
    }
    assert Mirror(n, 0) == 0 && forall k: nat :: 0 < k < n ==> Mirror(n, k) == n - k;
    hide Mirror;
    PairedSumIsReal(f, n);
  }

  // With one gain for a bin and its mirror image, whatever the gains, the inverse transform of a
  // real frame's spectrum is real.
  lemma FilteredIsReal(t: Trig, frame: seq<real>, window: seq<real>, gains: seq<real>, n: nat, j: nat)
    requires Lawful(t) && |frame| == |window| && |gains| == n / 2 + 1 && j < n
    ensures Filtered(t, frame, window, gains, n)[j].im == 0.0
  {
    var x := Padded(frame, window, n);
    assert RealSamples(x);
    hide Lawful, Spectrum, Padded, RealSamples, Conj, Synthesis;
    var y := Shaped(Spectrum(t, x), gains);
    forall k | 0 <= k < n ensures y[Mirror(n, k)] == Conj(y[k]) {
      ShapedMirrors(t, x, gains, k);
    }
    hide Shaped;
    SynthesisIsReal(t, y, j);
  }

  lemma SynthesisAt(t: Trig, y: seq<C>, j: nat)
    requires j < |y|
    ensures Synthesis(t, y)[j] == Sum((k: nat) => Mul(At(y, k), Conj(Twiddle(t, |y|, k * j))), |y|)
  {
  }

  // With every gain at 1 the frame comes back windowed, at twice its size.
  lemma UnitGainsDouble(t: Trig, frame: seq<real>, window: seq<real>, gains: seq<real>, n: nat, bits: nat, i: nat)
    requires Lawful(t) && n == Pow2(bits) && i < |frame| == |window| <= n && |gains| == n / 2 + 1
    requires forall k :: 0 <= k < |gains| ==> gains[k] == 1.0
    ensures Filtered(t, frame, window, gains, n)[i].re * (2.0 / n as real) == 2.0 * (frame[i] * window[i])
  {
    hide Lawful, Dft, Synthesis, Pow2;
    var x := Padded(frame, window, n);
    assert Shaped(Spectrum(t, x), gains) == Spectrum(t, x);
    SynthesisOfSpectrum(t, x, bits);
    assert Filtered(t, frame, window, gains, n)[i].re == n as real * (frame[i] * window[i]);
    ScaledBack(n as real, frame[i] * window[i]);
  }

  lemma ScaledBack(n: real, v: real)
    requires n > 0.0
    ensures n * v * (2.0 / n) == 2.0 * v
  {
    var s := 2.0 / n;
    assert s * n == 2.0;
    assert n * v * s == s * n * v;
  }
}
