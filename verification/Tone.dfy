// Which way the noise suppressor's transform turns: a pure tone ends up in its own bin, whole.
module Tone {
  import opened Arithmetic
  import opened Complex
  import opened Fft

  // Sample `m` of the tone that turns `bin` times in `n` samples, counter-clockwise.
  function ToneSample(t: Trig, n: nat, bin: nat, m: nat): C
    requires n > 0
  {
    C(t.cos(Angle(t, n, bin * m)), t.sin(Angle(t, n, bin * m)))
  }

  function PureTone(t: Trig, n: nat, bin: nat): seq<C> {
    seq(n, m requires 0 <= m < n => ToneSample(t, n, bin, m))
  }

  // Nothing but this value in this bin.
  function Peak(n: nat, bin: nat, value: real): seq<C> {
    seq(n, k requires 0 <= k < n => if k == bin then C(value, 0.0) else ZERO)
  }

  lemma {:induction false} SumSingle(f: nat -> C, n: nat, b: nat)
    requires forall k: nat :: k < n && k != b ==> f(k) == ZERO
    ensures Sum(f, n) == if b < n then f(b) else ZERO
  {
    if n > 0 {
      SumSingle(f, n - 1, b);
    }
  }

  lemma PeakTerm(n: nat, bin: nat, k: nat, w: C)
    requires k < n
    ensures Mul(At(Peak(n, bin, 1.0), k), w) == if k == bin then w else ZERO
  {
  }

  lemma ToneAt(t: Trig, n: nat, bin: nat, j: nat)
    requires bin < n && j < n
    ensures Conj(Twiddle(t, n, bin * j)) == PureTone(t, n, bin)[j]
  {
    assert PureTone(t, n, bin)[j] == ToneSample(t, n, bin, j) by {
      hide ToneSample;
    }
  }

  lemma SynthesisAt(t: Trig, n: nat, bin: nat, j: nat)
    requires bin < n && j < n
    ensures Synthesis(t, Peak(n, bin, 1.0))[j] == Conj(Twiddle(t, n, bin * j))
  {
    hide Mul, At, Twiddle, Conj, Peak;
    var e := Peak(n, bin, 1.0);
    PeakLength(n, bin, 1.0);
    var f := (k: nat) => Mul(At(e, k), Conj(Twiddle(t, |e|, k * j)));
    forall k: nat | k < n
      ensures f(k) == if k == bin then Conj(Twiddle(t, n, bin * j)) else ZERO
    {
      PeakTerm(n, bin, k, Conj(Twiddle(t, n, k * j)));
    }
    SumSingle(f, n, bin);
  }

  lemma PeakLength(n: nat, bin: nat, value: real)
    ensures |Peak(n, bin, value)| == n
  {
  }

  // The tone is what a peak in its bin is synthesised into.
  lemma ToneIsSynthesis(t: Trig, n: nat, bin: nat)
    requires bin < n
    ensures Synthesis(t, Peak(n, bin, 1.0)) == PureTone(t, n, bin)
  {
    var s, tone := Synthesis(t, Peak(n, bin, 1.0)), PureTone(t, n, bin);
    assert |s| == |tone| == n;
    hide Twiddle, Synthesis, PureTone, Peak, Conj;
    forall j: nat | j < n
      ensures s[j] == tone[j]
    {
      SynthesisAt(t, n, bin, j);
      ToneAt(t, n, bin, j);
    }
  }

  lemma ConjTwice(x: seq<C>)
    ensures ConjAll(ConjAll(x)) == x
  {
  }

  lemma PeakIsReal(n: nat, bin: nat, value: real)
    ensures ConjAll(Peak(n, bin, value)) == Peak(n, bin, value)
  {
  }

  lemma PeakScaled(n: nat, bin: nat)
    ensures var e := Peak(n, bin, 1.0);
            Peak(n, bin, n as real) == seq(|e|, j requires 0 <= j < |e| => Scale(|e| as real, e[j]))
  {
  }

  // Analysed, the tone fills its own bin and leaves every other empty.
  lemma ToneFillsItsBin(t: Trig, bits: nat, bin: nat)
    requires Lawful(t) && bin < Pow2(bits)
    ensures Spectrum(t, PureTone(t, Pow2(bits), bin)) == Peak(Pow2(bits), bin, Pow2(bits) as real)
  {
    hide Lawful, Spectrum, Synthesis, Pow2, PureTone, Peak, ConjAll, Scale;
    var n := Pow2(bits);
    var e, tone, full := Peak(n, bin, 1.0), PureTone(t, n, bin), Peak(n, bin, n as real);
    PeakLength(n, bin, 1.0);
    PeakIsReal(n, bin, 1.0);
    PeakIsReal(n, bin, n as real);
    PeakScaled(n, bin);
    ToneIsSynthesis(t, n, bin);
    ConjSpectrum(t, e);
    assert ConjAll(Spectrum(t, e)) == tone;
    ConjTwice(Spectrum(t, e));
    SynthesisOfSpectrum(t, e, bits);
    assert Synthesis(t, ConjAll(tone)) == full;
    ConjSpectrum(t, ConjAll(tone));
    ConjTwice(tone);
    ConjTwice(Spectrum(t, tone));
  }
}
