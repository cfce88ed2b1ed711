// The adaptive echo canceller: a normalised least-mean-squares filter on a circular delay line,
// over exact reals.
module Nlms {

  // ---------- the filter on a newest-first shift register ----------

  datatype Settings = Settings(length: nat, mu: real, eps: real, leakage: real)

  datatype Filter = Filter(weights: seq<real>, register: seq<real>)

  function Dot(w: seq<real>, x: seq<real>, n: nat): real
    requires n <= |w| && n <= |x|
  {
    if n == 0 then 0.0 else Dot(w, x, n - 1) + w[n - 1] * x[n - 1]
  }

  // The power of the register on top of a floor.
  function Power(floor: real, x: seq<real>, n: nat): (p: real)
    requires n <= |x|
    ensures p >= floor
  {
    if n == 0 then floor else Power(floor, x, n - 1) + x[n - 1] * x[n - 1]
  }

  predicate Sized(f: Filter, n: nat) {
    n > 0 && |f.weights| == |f.register| == n
  }

  function Shifted(x: seq<real>, far: real): (shifted: seq<real>)
    requires x != []
    ensures |shifted| == |x|
  {
    [far] + x[..|x| - 1]
  }

  // One weight after the update.
  function Blend(weight: real, leakage: real, step: real, sample: real): real {
    weight * leakage + step * sample
  }

  function Adapted(w: seq<real>, x: seq<real>, leakage: real, step: real): seq<real>
    requires |w| == |x|
  {
    seq(|w|, i requires 0 <= i < |w| => Blend(w[i], leakage, step, x[i]))
  }

  // One sample through the filter: the residual and the filter after it.
  function Residual(s: Settings, f: Filter, near: real, far: real): real
    requires Sized(f, s.length)
  {
    near - Dot(f.weights, Shifted(f.register, far), s.length)
  }

  function NormalizedStep(mu: real, error: real, power: real): real
    requires power != 0.0
  {
    mu * error / power
  }

  function StepSize(s: Settings, f: Filter, near: real, far: real): real
    requires Sized(f, s.length) && s.eps > 0.0
  {
    NormalizedStep(s.mu, Residual(s, f, near, far), Power(s.eps, Shifted(f.register, far), s.length))
  }

  function Updated(s: Settings, f: Filter, near: real, far: real): (after: Filter)
    requires Sized(f, s.length) && s.eps > 0.0
    ensures Sized(after, s.length)
  {
    var x := Shifted(f.register, far);
    Filter(Adapted(f.weights, x, s.leakage, StepSize(s, f, near, far)), x)
  }

  function FarAt(far: seq<real>, i: nat): real {
    if i < |far| then far[i] else 0.0
  }

  // The filter after a block; missing far-end samples are silence.
  function After(s: Settings, f: Filter, near: seq<real>, far: seq<real>): (after: Filter)
    requires Sized(f, s.length) && s.eps > 0.0
    ensures Sized(after, s.length)
  {
    if near == [] then f
    else
      var n := |near| - 1;
      Updated(s, After(s, f, near[..n], far), near[n], FarAt(far, n))
  }

  lemma AfterOneMore(s: Settings, f: Filter, near: seq<real>, far: seq<real>, i: nat)
    requires Sized(f, s.length) && s.eps > 0.0 && i < |near|
    ensures After(s, f, near[..i + 1], far) == Updated(s, After(s, f, near[..i], far), near[i], FarAt(far, i))
  {
    assert near[..i + 1][..i] == near[..i];
  }

  // Each output is the residual of its position, in the filter that the samples before it leave.
  ghost predicate Residuals(s: Settings, f: Filter, near: seq<real>, far: seq<real>, out: seq<real>)
    requires Sized(f, s.length) && s.eps > 0.0 && |out| <= |near|
  {
    forall i :: 0 <= i < |out| ==> out[i] == Residual(s, After(s, f, near[..i], far), near[i], FarAt(far, i))
  }

  lemma NoResiduals(s: Settings, f: Filter, near: seq<real>, far: seq<real>)
    requires Sized(f, s.length) && s.eps > 0.0
    ensures Residuals(s, f, near, far, [])
  {
  }

  lemma ResidualsMore(s: Settings, f: Filter, near: seq<real>, far: seq<real>, out: seq<real>, sample: real)
    requires Sized(f, s.length) && s.eps > 0.0 && |out| < |near| && Residuals(s, f, near, far, out)
    requires sample == Residual(s, After(s, f, near[..|out|], far), near[|out|], FarAt(far, |out|))
    ensures Residuals(s, f, near, far, out + [sample])
  {
    hide Residual, After;
  }

  function Silent(n: nat): Filter {
    Filter(seq(n, _ => 0.0), seq(n, _ => 0.0))
  }

  // ---------- the circular form ----------

  // The slot of the i-th newest sample when the next write goes to `write`.
  function NewestFirst(write: nat, i: nat, n: nat): (slot: nat)
    requires write < n && i < n
    ensures slot < n
  {
    if i < write then write - 1 - i else write - 1 - i + n
  }

  // The slot reached after walking back `i` times from `write`.
  function WalkBack(write: nat, i: nat, n: nat): int
    requires write < n && i <= n
  {
    if i <= write then write - i else write - i + n
  }

  class NlmsAec {
    const settings: Settings
    const weights: array<real>
    const delayLine: array<real>
    var writeIndex: nat

    ghost predicate Valid()
      reads this, weights, delayLine
    {
      && settings.length > 0 && settings.eps > 0.0
      && weights != delayLine && weights.Length == delayLine.Length == settings.length
      && writeIndex < settings.length
    }

    ghost function State(): (f: Filter)
      requires Valid()
      reads this, weights, delayLine
      ensures Sized(f, settings.length)
    {
      Filter(weights[..],
             seq(settings.length, i requires 0 <= i < settings.length && Valid() reads this, weights, delayLine =>
               delayLine[NewestFirst(writeIndex, i, settings.length)]))
    }

    constructor (filterLength: int, mu: real, eps: real, leakage: real)
      requires eps > 0.0
      ensures Valid() && fresh(weights) && fresh(delayLine)
      ensures settings == Settings(if filterLength < 8 then 8 else filterLength, mu, eps, leakage)
      ensures State() == Silent(settings.length)
    {
      var n: nat := if filterLength < 8 then 8 else filterLength;
      settings := Settings(n, mu, eps, leakage);
      weights := new real[n](_ => 0.0);
      delayLine := new real[n](_ => 0.0);
      writeIndex := 0;
    }

    method Reset()
      requires Valid()
      modifies this, weights, delayLine
      ensures Valid() && State() == Silent(settings.length)
    {
      forall i | 0 <= i < weights.Length {
        weights[i] := 0.0;
      }
      forall i | 0 <= i < delayLine.Length {
        delayLine[i] := 0.0;
      }
      writeIndex := 0;
    }

    // The estimate and the power, over the delay line walked back from the write position.
    method Correlate(ghost x: seq<real>) returns (yHat: real, power: real)
      requires Valid() && |x| == settings.length
      requires forall i :: 0 <= i < settings.length ==> delayLine[WalkBack(writeIndex, i, settings.length)] == x[i]
      ensures yHat == Dot(weights[..], x, settings.length) && power == Power(settings.eps, x, settings.length)
    {
      var n := settings.length;
      yHat := 0.0;
      power := settings.eps;
      var idx: int := writeIndex;
      for i := 0 to n
        invariant i < n ==> idx == WalkBack(writeIndex, i, n)
        invariant yHat == Dot(weights[..], x, i) && power == Power(settings.eps, x, i)
      {
        var sample := delayLine[idx];
        yHat := yHat + weights[i] * sample;
        power := power + sample * sample;
        idx := idx - 1;
        if idx < 0 {
          idx := n - 1;
        }
      }
    }

    method Adapt(ghost x: seq<real>, step: real)
      requires Valid() && |x| == settings.length
      requires forall i :: 0 <= i < settings.length ==> delayLine[WalkBack(writeIndex, i, settings.length)] == x[i]
      modifies weights
      ensures weights[..] == Adapted(old(weights[..]), x, settings.leakage, step)
    {
      hide Blend;
      var n := settings.length;
      var idx: int := writeIndex;
      for i := 0 to n
        invariant i < n ==> idx == WalkBack(writeIndex, i, n)
        invariant forall k :: 0 <= k < i ==> weights[k] == Blend(old(weights[k]), settings.leakage, step, x[k])
        invariant forall k :: i <= k < n ==> weights[k] == old(weights[k])
      {
        var sample := delayLine[idx];
        weights[i] := Blend(weights[i], settings.leakage, step, sample);
        idx := idx - 1;
        if idx < 0 {
          idx := n - 1;
        }
      }
    }

    // The far-end sample goes to the write position, over the oldest one.
    method Admit(far: real, ghost x: seq<real>)
      requires Valid() && x == Shifted(State().register, far)
      modifies delayLine
      ensures forall i :: 0 <= i < settings.length ==> delayLine[WalkBack(writeIndex, i, settings.length)] == x[i]
    {
      ghost var n, before := settings.length, State();
      delayLine[writeIndex] := far;
      forall i | 0 <= i < n ensures delayLine[WalkBack(writeIndex, i, n)] == x[i] {
        if i > 0 {
          assert WalkBack(writeIndex, i, n) == NewestFirst(writeIndex, i - 1, n);
          assert x[i] == before.register[i - 1];
        }
      }
    }

    method NextSlot(ghost x: seq<real>)
      requires Valid() && |x| == settings.length
      requires forall i :: 0 <= i < settings.length ==> delayLine[WalkBack(writeIndex, i, settings.length)] == x[i]
      modifies this`writeIndex
      ensures Valid() && State() == Filter(weights[..], x)
    {
      ghost var written, n := writeIndex, settings.length;
      writeIndex := writeIndex + 1;
      if writeIndex >= settings.length {
        writeIndex := 0;
      }
      assert forall i :: 0 <= i < n ==> NewestFirst(writeIndex, i, n) == WalkBack(written, i, n);
    }

    method ProcessSample(near: real, far: real) returns (error: real)
      requires Valid()
      modifies this, weights, delayLine
      ensures Valid()
      ensures error == Residual(settings, old(State()), near, far)
      ensures State() == Updated(settings, old(State()), near, far)
    {
      ghost var before := State();
      ghost var x := Shifted(before.register, far);
      Admit(far, x);
      assert weights[..] == before.weights;
      hide State, Dot, Power, Blend, Shifted, NormalizedStep;
      var yHat, power := Correlate(x);
      error := near - yHat;
      var step := NormalizedStep(settings.mu, error, power);
      assert step == StepSize(settings, before, near, far);
      hide StepSize;
      Adapt(x, step);
      NextSlot(x);
    }

    method Process(near: seq<real>, far: seq<real>) returns (out: seq<real>)
      requires Valid()
      modifies this, weights, delayLine
      ensures Valid() && State() == After(settings, old(State()), near, far)
      ensures |out| == |near| && Residuals(settings, old(State()), near, far, out)
    {
      hide State, Dot, Power, Residual, Updated, Residuals;
      ghost var start := State();
      assert After(settings, start, near[..0], far) == start;
      hide After;
      out := [];
      NoResiduals(settings, start, near, far);
      for i := 0 to |near|
        invariant Valid() && State() == After(settings, start, near[..i], far)
        invariant |out| == i && Residuals(settings, start, near, far, out)
      {
        AfterOneMore(settings, start, near, far, i);
        var farSample := if i < |far| then far[i] else 0.0;
        var sample := ProcessSample(near[i], farSample);
        ResidualsMore(settings, start, near, far, out, sample);
        out := out + [sample];
      }
      assert near[..|near|] == near;
    }
  }

  // ---------- the register is the recent past ----------

  // The far-end sample `i` steps before position `n`, silence before the start.
  function Past(far: seq<real>, n: nat, i: nat): real {
    if i < n then FarAt(far, n - 1 - i) else 0.0
  }

  // From a silent start, the register always holds the last far-end samples, newest first; so the
  // residual at each position is the near sample less a finite convolution of the far-end stream.
  lemma {:induction false} RegisterIsPast(s: Settings, near: seq<real>, far: seq<real>, i: nat)
    requires s.length > 0 && s.eps > 0.0 && i < s.length
    ensures After(s, Silent(s.length), near, far).register[i] == Past(far, |near|, i)
    decreases |near|
  {
    if near != [] {
      var n := |near| - 1;
      if i > 0 {
        RegisterIsPast(s, near[..n], far, i - 1);
      }
    }
  }

  // ---------- what the update does to the error ----------

  lemma DotUnfold(w: seq<real>, x: seq<real>, n: nat)
    requires 0 < n <= |w| && n <= |x|
    ensures Dot(w, x, n) == Dot(w, x, n - 1) + w[n - 1] * x[n - 1]
  {
  }

  lemma PowerUnfold(eps: real, x: seq<real>, n: nat)
    requires 0 < n <= |x|
    ensures Power(eps, x, n) == Power(eps, x, n - 1) + x[n - 1] * x[n - 1]
  {
  }

  lemma {:induction false} DotAdapted(w: seq<real>, x: seq<real>, leakage: real, step: real, eps: real, n: nat)
    requires |w| == |x| && n <= |x|
    ensures Dot(Adapted(w, x, leakage, step), x, n) == leakage * Dot(w, x, n) + step * (Power(eps, x, n) - eps)
  {
    if n > 0 {
      hide Blend, Dot, Power;
      DotAdapted(w, x, leakage, step, eps, n - 1);
      var a, b := w[n - 1], x[n - 1];
      var after := Adapted(w, x, leakage, step);
      TermAdapted(a, b, leakage, step);
      DotUnfold(after, x, n);
      DotUnfold(w, x, n);
      PowerUnfold(eps, x, n);
      Gather(leakage, Dot(w, x, n - 1), a * b, step, Power(eps, x, n - 1) - eps, b * b);
    }
  }

  lemma Gather(c: real, p: real, q: real, d: real, r: real, t: real)
    ensures (c * p + d * r) + (c * q + d * t) == c * (p + q) + d * (r + t)
  {
  }

  lemma TermAdapted(a: real, b: real, leakage: real, step: real)
    ensures Blend(a, leakage, step, b) * b == leakage * (a * b) + step * (b * b)
  {
  }

  // The error the updated weights leave on the same sample.
  function PostError(s: Settings, f: Filter, near: real, far: real): real
    requires Sized(f, s.length) && s.eps > 0.0
  {
    near - Dot(Updated(s, f, near, far).weights, Shifted(f.register, far), s.length)
  }

  lemma PostErrorIs(s: Settings, f: Filter, near: real, far: real)
    requires Sized(f, s.length) && s.eps > 0.0
    ensures var x := Shifted(f.register, far);
            var p := Power(s.eps, x, s.length);
            PostError(s, f, near, far) ==
            near - s.leakage * Dot(f.weights, x, s.length) - s.mu * Residual(s, f, near, far) * (p - s.eps) / p
  {
    var x := Shifted(f.register, far);
    var p, e := Power(s.eps, x, s.length), Residual(s, f, near, far);
    DotAdapted(f.weights, x, s.leakage, StepSize(s, f, near, far), s.eps, s.length);
    hide Dot, Power;
    MulDiv(s.mu * e, p - s.eps, p);
  }

  lemma MulDiv(a: real, b: real, c: real)
    requires c != 0.0
    ensures a / c * b == a * b / c
  {
    var q := a / c;
    assert q * c == a;
    assert q * b * c == a * b;
  }

  function Abs(x: real): real {
    if x < 0.0 then -x else x
  }

  function Correction(mu: real, e: real, q: real, p: real): real
    requires p != 0.0
  {
    mu * e * q / p
  }

  // Without leakage and with a step in [0, 1], one update never makes the error on its own sample
  // larger.
  lemma UpdateNeverOvershoots(s: Settings, f: Filter, near: real, far: real)
    requires Sized(f, s.length) && s.eps > 0.0 && s.leakage == 1.0 && 0.0 <= s.mu <= 1.0
    ensures Abs(PostError(s, f, near, far)) <= Abs(Residual(s, f, near, far))
  {
    hide Residual, PostError, Shifted, Abs, Dot, Power, Correction;
    PostErrorFromResidual(s, f, near, far);
    var p := Power(s.eps, Shifted(f.register, far), s.length);
    Shrinks(Residual(s, f, near, far), s.mu, p - s.eps, p);
  }

  lemma PostErrorFromResidual(s: Settings, f: Filter, near: real, far: real)
    requires Sized(f, s.length) && s.eps > 0.0 && s.leakage == 1.0
    ensures var p := Power(s.eps, Shifted(f.register, far), s.length);
            PostError(s, f, near, far) ==
            Residual(s, f, near, far) - Correction(s.mu, Residual(s, f, near, far), p - s.eps, p)
  {
    PostErrorIs(s, f, near, far);
    hide Dot, Power, PostError;
  }

  lemma Product(a: real, b: real)
    requires 0.0 <= a <= 1.0 && 0.0 <= b
    ensures 0.0 <= a * b <= b
  {
  }

  lemma Quotient(q: real, p: real)
    requires 0.0 <= q <= p && p > 0.0
    ensures 0.0 <= q / p <= 1.0
  {
    var r := q / p;
    assert r * p == q;
  }

  lemma Shrinks(e: real, mu: real, q: real, p: real)
    requires 0.0 <= mu <= 1.0 && 0.0 <= q <= p && p > 0.0
    ensures Abs(e - Correction(mu, e, q, p)) <= Abs(e)
  {
    var r := q / p;
    Quotient(q, p);
    Product(mu, r);
    var c := mu * r;
    MulDivRight(mu * e, q, p);
    var t := Correction(mu, e, q, p);
    assert t == mu * e * r == c * e;
    hide Correction;
    var kept := (1.0 - c) * e;
    assert e - t == kept;
    if e >= 0.0 {
      Product(1.0 - c, e);
    } else {
      Product(1.0 - c, -e);
      assert (1.0 - c) * -e == -kept;
    }
  }

  lemma MulDivRight(a: real, b: real, c: real)
    requires c != 0.0
    ensures a * b / c == a * (b / c)
  {
    var q := b / c;
    assert q * c == b;
    assert a * q * c == a * b;
  }

  // ---------- the filter never moves away from an exact echo path ----------

  function Square(x: real): real {
    x * x
  }

  // The squared distance between two weight vectors.
  function Distance(v: seq<real>, w: seq<real>, n: nat): (d: real)
    requires n <= |v| && n <= |w|
    ensures d >= 0.0
  {
    if n == 0 then 0.0
    else
      SquarePositive(v[n - 1] - w[n - 1]);
      Distance(v, w, n - 1) + Square(v[n - 1] - w[n - 1])
  }

  lemma SquarePositive(x: real)
    ensures x * x == Square(x) >= 0.0
  {
  }

  lemma DistanceUnfold(v: seq<real>, w: seq<real>, n: nat)
    requires 0 < n <= |v| && n <= |w|
    ensures Distance(v, w, n) == Distance(v, w, n - 1) + Square(v[n - 1] - w[n - 1])
  {
  }

  // A squared distance after a step that closes in by `gain` per unit and has the given power.
  function Approached(distance: real, step: real, gain: real, power: real): real {
    distance - 2.0 * step * gain + step * step * power
  }

  // The totals up to position `n`: distance before and after the step, both estimates, the power.
  datatype Totals = Totals(before: real, after: real, echo: real, estimate: real, power: real)

  function TotalsAt(path: seq<real>, w: seq<real>, x: seq<real>, step: real, eps: real, n: nat): Totals
    requires |path| == |w| == |x| && n <= |x|
  {
    Totals(Distance(path, w, n), Distance(path, Adapted(w, x, 1.0, step), n), Dot(path, x, n), Dot(w, x, n),
           Power(eps, x, n) - eps)
  }

  predicate Closing(t: Totals, step: real) {
    t.after == Approached(t.before, step, t.echo - t.estimate, t.power)
  }

  // One position more: `a` on the path, `b` before the step, `c` in the register.
  function Extended(t: Totals, a: real, b: real, c: real, step: real): Totals {
    Totals(t.before + Square(a - b), t.after + Square(a - Blend(b, 1.0, step, c)), t.echo + a * c,
           t.estimate + b * c, t.power + c * c)
  }

  lemma TotalsUnfold(path: seq<real>, w: seq<real>, x: seq<real>, step: real, eps: real, n: nat)
    requires 0 < n <= |x| == |w| == |path|
    ensures TotalsAt(path, w, x, step, eps, n) ==
            Extended(TotalsAt(path, w, x, step, eps, n - 1), path[n - 1], w[n - 1], x[n - 1], step)
  {
    hide Blend, Dot, Power, Distance, Square;
    assert Adapted(w, x, 1.0, step)[n - 1] == Blend(w[n - 1], 1.0, step, x[n - 1]);
    DistanceUnfold(path, Adapted(w, x, 1.0, step), n);
    DistanceUnfold(path, w, n);
    DotUnfold(path, x, n);
    DotUnfold(w, x, n);
    PowerUnfold(eps, x, n);
  }

  lemma GapApproaches(d: real, p: real, q: real, power: real, a: real, b: real, c: real, step: real)
    ensures Approached(d, step, p - q, power) + Square(a - Blend(b, 1.0, step, c)) ==
            Approached(d + Square(a - b), step, (p + a * c) - (q + b * c), power + c * c)
  {
    var gap, t := a - b, step * c;
    assert Blend(b, 1.0, step, c) == b + t;
    assert (gap - t) * (gap - t) == gap * gap - 2.0 * (gap * t) + t * t;
    assert gap * t == step * (a * c - b * c);
    assert t * t == step * step * (c * c);
    Gather(2.0 * step, p - q, a * c - b * c, -(step * step), power, c * c);
  }

  lemma ClosingExtends(t: Totals, a: real, b: real, c: real, step: real)
    requires Closing(t, step)
    ensures Closing(Extended(t, a, b, c, step), step)
  {
    hide Approached, Square, Blend;
    GapApproaches(t.before, t.echo, t.estimate, t.power, a, b, c, step);
  }

  lemma NothingCloses(path: seq<real>, w: seq<real>, x: seq<real>, step: real, eps: real)
    requires |path| == |w| == |x|
    ensures Closing(TotalsAt(path, w, x, step, eps, 0), step)
  {
  }

  lemma {:induction false} DistanceAdapted(path: seq<real>, w: seq<real>, x: seq<real>, step: real, eps: real, n: nat)
    requires |path| == |w| == |x| && n <= |x|
    ensures Closing(TotalsAt(path, w, x, step, eps, n), step)
  {
    hide TotalsAt, Closing, Extended;
    if n == 0 {
      NothingCloses(path, w, x, step, eps);
    } else {
      DistanceAdapted(path, w, x, step, eps, n - 1);
      TotalsUnfold(path, w, x, step, eps, n);
      ClosingExtends(TotalsAt(path, w, x, step, eps, n - 1), path[n - 1], w[n - 1], x[n - 1], step);
    }
  }

  // When the near signal is exactly the echo of `path`, with no leakage and a step in [0, 2], one
  // update never takes the weights further from `path`.
  lemma NeverMovesAway(s: Settings, f: Filter, path: seq<real>, far: real)
    requires Sized(f, s.length) && s.eps > 0.0 && s.leakage == 1.0 && 0.0 <= s.mu <= 2.0 && |path| == s.length
    ensures var near := Dot(path, Shifted(f.register, far), s.length);
            Distance(path, Updated(s, f, near, far).weights, s.length) <= Distance(path, f.weights, s.length)
  {
    hide Distance, Power, NormalizedStep, Shifted, Approached, Dot, Adapted;
    var x := Shifted(f.register, far);
    var near := Dot(path, x, s.length);
    var p, e := Power(s.eps, x, s.length), Residual(s, f, near, far);
    var step := NormalizedStep(s.mu, e, p);
    assert Updated(s, f, near, far).weights == Adapted(f.weights, x, 1.0, step);
    DistanceAdapted(path, f.weights, x, step, s.eps, s.length);
    Descends(Distance(path, f.weights, s.length), e, s.mu, p - s.eps, p);
  }

  lemma Descends(d: real, e: real, mu: real, q: real, p: real)
    requires 0.0 <= mu <= 2.0 && 0.0 <= q <= p && p > 0.0
    ensures Approached(d, NormalizedStep(mu, e, p), e, q) <= d
  {
    var step, u := NormalizedStep(mu, e, p), e / p;
    MulDivRight(mu, e, p);
    assert step == mu * u && u * p == e;
    hide NormalizedStep;
    SquarePositive(u);
    hide Square;
    var b := mu * Square(u);
    ProductMono(mu, 0.0, Square(u));
    StepTerms(mu, u, p, q);
    Squeeze(mu, b, q, p);
  }

  lemma StepTerms(mu: real, u: real, p: real, q: real)
    ensures var step, b := mu * u, mu * Square(u);
            2.0 * step * (u * p) == 2.0 * (b * p) && step * step * q == mu * (b * q)
  {
    var step, b := mu * u, mu * Square(u);
    assert step * (u * p) == b * p;
    assert step * step == mu * b;
    assert mu * b * q == mu * (b * q);
  }

  lemma Squeeze(mu: real, b: real, q: real, p: real)
    requires 0.0 <= mu <= 2.0 && b >= 0.0 && 0.0 <= q <= p
    ensures mu * (b * q) <= 2.0 * (b * p)
  {
    ProductMono(b, q, p);
    ProductMono(b, 0.0, q);
    ProductMono(b * q, mu, 2.0);
  }

  lemma ProductMono(a: real, b: real, c: real)
    requires a >= 0.0
    ensures b <= c ==> a * b <= a * c
  {
  }
}
