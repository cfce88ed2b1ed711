// What the noise suppressor's rule does to quiet and to loud bins, and how its estimate settles.
module NoiseRule {
  import opened Complex
  import opened Fft
  import opened Denoise

  // ---------- gains ----------

  lemma QuietGain(psd: real, power: real)
    requires 0.0 <= power <= psd
    ensures GainFor(psd, power) == 0.1
  {
    var floor := psd + 0.000000000001;
    var snr := power / floor;
    assert snr * floor == power;
    assert snr <= 1.0 by {
      if snr > 1.0 {
        ScaleMono(1.0, snr, floor);
      }
    }
    assert 1.0 / (snr + 0.000001) >= 0.99;
  }

  lemma LoudGain(psd: real, power: real)
    requires psd >= 0.0 && power >= 100.0 * (psd + 0.000000000001)
    ensures 0.99 <= GainFor(psd, power) < 1.0
  {
    var floor := psd + 0.000000000001;
    var snr := power / floor;
    assert snr * floor == power;
    assert snr >= 100.0 by {
      if snr < 100.0 {
        StrictScale(snr, 100.0, floor);
      }
    }
    Reciprocal(snr + 0.000001, 100.0);
    GainBounds(psd, power);
  }

  lemma StrictScale(a: real, b: real, c: real)
    requires a < b && c > 0.0
    ensures a * c < b * c
  {
    assert (b - a) * c > 0.0;
  }

  lemma Reciprocal(x: real, y: real)
    requires x >= y > 0.0
    ensures 1.0 / x <= 1.0 / y
  {
    var a, b := 1.0 / x, 1.0 / y;
    assert a * x == 1.0 && b * y == 1.0;
    if a > b {
      StrictScale(b, a, x);
      ScaleMono(y, x, b);
    }
  }

  // The bin whose estimate governs bin `k` of a spectrum of `n`: its own or its mirror image's.
  function Governs(n: nat, k: nat): nat
    requires k < n
  {
    if k <= n / 2 then k else n - k
  }

  // A bin no louder than the noise estimate is cut to a tenth; one a hundred times as loud passes all but
  // whole; and its mirror image is treated alike.
  lemma GainsFollowNoise(noise: Noise, x: seq<C>, k: nat)
    requires |x| > 0 && |x| % 2 == 0 && |noise.psd| == |x| / 2 + 1 && NonNegative(noise.psd) && k < |x|
    ensures var powers := Powers(x, |x| / 2 + 1);
            var y, psd := Shaped(x, GainsFor(noise, powers)), NoiseAfter(noise, powers).psd[Governs(|x|, k)];
            var power := Power(x[Governs(|x|, k)]);
            && (power <= psd ==> y[k] == Scale(0.1, x[k]))
            && (power >= 100.0 * (psd + 0.000000000001) ==>
                  exists gain :: 0.99 <= gain < 1.0 && y[k] == Scale(gain, x[k]))
  {
    hide Power, GainFor, Tracked, NoiseLike, Scale;
    var powers := Powers(x, |x| / 2 + 1);
    var j := Governs(|x|, k);
    var psd, power := PsdAfter(noise, powers)[j], powers[j];
    RuleAt(noise, powers, j);
    assert power == Power(x[j]);
    var y := Shaped(x, GainsFor(noise, powers));
    assert y[k] == Scale(GainFor(psd, power), x[k]);
    if power <= psd {
      QuietGain(psd, power);
    }
    if power >= 100.0 * (psd + 0.000000000001) {
      LoudGain(psd, power);
    }
  }

  // ---------- the estimate ----------

  // A frame is taken for noise while 25 are not reached, or when its power is below 1.8 times the
  // estimate's; the estimate of each bin then moves a twentieth of the way to the bin's power. Any other
  // frame raises no estimate, and lowers one by a fifth of the way to a lower power.
  lemma FrameIsJudged(noise: Noise, powers: seq<real>, k: nat)
    requires k < |powers| == |noise.psd| && NonNegative(noise.psd) && NonNegative(powers)
    ensures var after := NoiseAfter(noise, powers);
            var was, power := noise.psd[k], powers[k];
            if noise.frames < 25 || Total(powers) < 1.8 * Total(noise.psd)
            then after.frames == noise.frames + 1 && after.psd[k] - was == 0.05 * (power - was)
            else after.frames == noise.frames && after.psd[k] - was == if power < was then 0.2 * (power - was) else 0.0
  {
    MeansCompare(Total(powers), Total(noise.psd), |powers| as real);
    RuleAt(noise, powers, k);
    hide Total;
  }

  lemma MeansCompare(a: real, b: real, n: real)
    requires n > 0.0
    ensures a / n < b / n * 1.8 <==> a < 1.8 * b
  {
    var x, y := a / n, b / n;
    assert x * n == a && y * n == b;
    if x < y * 1.8 {
      StrictScale(x, y * 1.8, n);
    } else {
      ScaleMono(y * 1.8, x, n);
    }
    assert y * 1.8 * n == 1.8 * (y * n);
  }

  // What is left of a gap that shrinks by a twentieth `n` times.
  function Remaining(gap: real, n: nat): real {
    if n == 0 then gap else 0.95 * Remaining(gap, n - 1)
  }

  lemma {:induction false} CountsOnceAtMost(noise: Noise, frames: seq<seq<real>>)
    requires noise.psd != [] && NonNegative(noise.psd) && Spectra(frames, |noise.psd|)
    ensures Heard(noise, frames).frames <= noise.frames + |frames|
  {
    if frames != [] {
      CountsOnceAtMost(noise, frames[..|frames| - 1]);
      hide PsdAfter, NoiseLike;
    }
  }

  lemma SettlesOnce(before: Noise, powers: seq<real>, k: nat, power: real)
    requires k < |powers| == |before.psd| && NonNegative(before.psd) && NonNegative(powers) && powers[k] == power
    requires NoiseAfter(before, powers).frames == before.frames + 1
    ensures NoiseAfter(before, powers).psd[k] - power == 0.95 * (before.psd[k] - power)
  {
    FrameIsJudged(before, powers, k);
    hide NoiseAfter, Total;
  }

  // While every frame is taken for noise and a bin's power is steady, what separates its estimate from
  // that power shrinks by a twentieth a frame.
  lemma {:induction false} EstimateSettles(noise: Noise, frames: seq<seq<real>>, k: nat, power: real)
    requires k < |noise.psd| && NonNegative(noise.psd) && Spectra(frames, |noise.psd|)
    requires forall i :: 0 <= i < |frames| ==> frames[i][k] == power
    requires Heard(noise, frames).frames == noise.frames + |frames|
    ensures Heard(noise, frames).psd[k] - power == Remaining(noise.psd[k] - power, |frames|)
  {
    if frames != [] {
      var front, last := frames[..|frames| - 1], frames[|frames| - 1];
      var before := Heard(noise, front);
      CountsOnceAtMost(noise, front);
      assert NoiseAfter(before, last).frames <= before.frames + 1;
      hide NoiseAfter;
      assert Heard(noise, frames) == NoiseAfter(before, last);
      EstimateSettles(noise, front, k, power);
      SettlesOnce(before, last, k, power);
    }
  }
}
