// Exact complex arithmetic, finite sums, and the roots of unity the Fourier transform turns on.
module Complex {

  datatype C = C(re: real, im: real)

  const ZERO := C(0.0, 0.0)
  const ONE := C(1.0, 0.0)

  function Add(a: C, b: C): C {
    C(a.re + b.re, a.im + b.im)
  }

  function Sub(a: C, b: C): C {
    C(a.re - b.re, a.im - b.im)
  }

  function Mul(a: C, b: C): C {
    C(a.re * b.re - a.im * b.im, a.re * b.im + a.im * b.re)
  }

  function Conj(a: C): C {
    C(a.re, -a.im)
  }

  function Neg(a: C): C {
    C(-a.re, -a.im)
  }

  function Scale(c: real, a: C): C {
    C(c * a.re, c * a.im)
  }

  lemma MulAssoc(a: C, b: C, c: C)
    ensures Mul(Mul(a, b), c) == Mul(a, Mul(b, c))
  {
    var x, y := Mul(Mul(a, b), c), Mul(a, Mul(b, c));
    assert x.re == a.re * b.re * c.re - a.im * b.im * c.re - a.re * b.im * c.im - a.im * b.re * c.im == y.re;
    assert x.im == a.re * b.re * c.im - a.im * b.im * c.im + a.re * b.im * c.re + a.im * b.re * c.re == y.im;
  }

  lemma MulComm(a: C, b: C)
    ensures Mul(a, b) == Mul(b, a)
  {
  }

  lemma MulAdd(a: C, b: C, c: C)
    ensures Mul(a, Add(b, c)) == Add(Mul(a, b), Mul(a, c))
  {
  }

  lemma MulNeg(a: C, b: C)
    ensures Mul(Neg(a), b) == Neg(Mul(a, b)) == Mul(a, Neg(b))
  {
  }

  lemma ConjMul(a: C, b: C)
    ensures Conj(Mul(a, b)) == Mul(Conj(a), Conj(b))
  {
  }

  // ---------- finite sums ----------

  function Sum(f: nat -> C, n: nat): C {
    if n == 0 then ZERO else Add(Sum(f, n - 1), f(n - 1))
  }

  lemma {:induction false} SumEqual(f: nat -> C, g: nat -> C, n: nat)
    requires forall m :: 0 <= m < n ==> f(m) == g(m)
    ensures Sum(f, n) == Sum(g, n)
  {
    if n > 0 {
      SumEqual(f, g, n - 1);
    }
  }

  lemma {:induction false} SumMul(w: C, f: nat -> C, g: nat -> C, n: nat)
    requires forall m :: 0 <= m < n ==> g(m) == Mul(w, f(m))
    ensures Sum(g, n) == Mul(w, Sum(f, n))
  {
    hide Mul;
    if n > 0 {
      SumMul(w, f, g, n - 1);
      MulAdd(w, Sum(f, n - 1), f(n - 1));
    } else {
      MulZero(w);
    }
  }

  lemma MulZero(w: C)
    ensures Mul(w, ZERO) == ZERO
  {
  }

  lemma {:induction false} SumScale(c: real, f: nat -> C, g: nat -> C, n: nat)
    requires forall m :: 0 <= m < n ==> g(m) == Scale(c, f(m))
    ensures Sum(g, n) == Scale(c, Sum(f, n))
  {
    if n > 0 {
      SumScale(c, f, g, n - 1);
    }
  }

  lemma {:induction false} SumConj(f: nat -> C, g: nat -> C, n: nat)
    requires forall m :: 0 <= m < n ==> g(m) == Conj(f(m))
    ensures Sum(g, n) == Conj(Sum(f, n))
  {
    if n > 0 {
      SumConj(f, g, n - 1);
    }
  }

  // A sum over 2h terms as the sum of its even and its odd terms.
  lemma {:induction false} SumEvenOdd(f: nat -> C, e: nat -> C, o: nat -> C, h: nat)
    requires forall m: nat :: m < h ==> f(2 * m) == e(m) && f(2 * m + 1) == o(m)
    ensures Sum(f, 2 * h) == Add(Sum(e, h), Sum(o, h))
  {
    if h > 0 {
      SumEvenOdd(f, e, o, h - 1);
      assert f(2 * (h - 1)) == e(h - 1) && f(2 * (h - 1) + 1) == o(h - 1);
      assert Sum(f, 2 * h) == Add(Add(Sum(f, 2 * h - 2), f(2 * h - 2)), f(2 * h - 1));
    }
  }

  // A sum over 2h terms as a sum of pairs h apart.
  lemma {:induction false} SumHalves(f: nat -> C, g: nat -> C, h: nat, m: nat)
    requires m <= h && forall k: nat :: k < h ==> g(k) == Add(f(k), f(k + h))
    ensures Sum(g, m) == Add(Sum(f, m), Sub(Sum(f, h + m), Sum(f, h)))
  {
    if m > 0 {
      SumHalves(f, g, h, m - 1);
    }
  }

  // ---------- roots of unity ----------

  // Exact cosine and sine, known by the addition formulas and their values at 0 and pi.
  datatype Trig = Trig(cos: real -> real, sin: real -> real, pi: real)

  predicate Adds(t: Trig, a: real, b: real) {
    && t.cos(a + b) == t.cos(a) * t.cos(b) - t.sin(a) * t.sin(b)
    && t.sin(a + b) == t.sin(a) * t.cos(b) + t.cos(a) * t.sin(b)
  }

  predicate OnCircle(t: Trig, a: real) {
    t.cos(a) * t.cos(a) + t.sin(a) * t.sin(a) == 1.0
  }

  ghost predicate Lawful(t: Trig) {
    && t.cos(0.0) == 1.0 && t.sin(0.0) == 0.0 && t.cos(t.pi) == -1.0 && t.sin(t.pi) == 0.0
    && (forall a, b :: Adds(t, a, b)) && (forall a :: OnCircle(t, a))
  }

  function Angle(t: Trig, size: nat, k: nat): real
    requires size > 0
  {
    t.pi * 2.0 / (size as real) * (k as real)
  }

  // The k-th power of the principal root of unity of the given order, turning clockwise.
  function Twiddle(t: Trig, size: nat, k: nat): C
    requires size > 0
  {
    C(t.cos(Angle(t, size, k)), -t.sin(Angle(t, size, k)))
  }

  lemma AngleAdds(t: Trig, size: nat, a: nat, b: nat)
    requires size > 0
    ensures Angle(t, size, a + b) == Angle(t, size, a) + Angle(t, size, b)
  {
    var step := t.pi * 2.0 / (size as real);
    assert (a + b) as real == a as real + b as real;
    assert step * (a as real + b as real) == step * (a as real) + step * (b as real);
  }

  lemma TwiddleAdd(t: Trig, size: nat, a: nat, b: nat)
    requires size > 0 && Lawful(t)
    ensures Twiddle(t, size, a + b) == Mul(Twiddle(t, size, a), Twiddle(t, size, b))
  {
    AngleAdds(t, size, a, b);
    hide Angle;
    assert Adds(t, Angle(t, size, a), Angle(t, size, b));
  }

  lemma TwiddleZero(t: Trig, size: nat)
    requires size > 0 && Lawful(t)
    ensures Twiddle(t, size, 0) == ONE
  {
    assert Angle(t, size, 0) == 0.0;
  }

  lemma TwiddleUnit(t: Trig, size: nat, k: nat)
    requires size > 0 && Lawful(t)
    ensures Mul(Twiddle(t, size, k), Conj(Twiddle(t, size, k))) == ONE
  {
    assert OnCircle(t, Angle(t, size, k));
  }

  lemma HalfStep(p: real, r: real, x: real)
    requires r != 0.0
    ensures p / (2.0 * r) * (2.0 * x) == p / r * x
    ensures p * 2.0 / (2.0 * r) * r == p
  {
    var d, e := p / (2.0 * r), p * 2.0 / (2.0 * r);
    assert d * (2.0 * r) == p && e * (2.0 * r) == p * 2.0;
    assert (2.0 * d) * r == p;
    assert p / r == 2.0 * d;
    assert d * (2.0 * x) == (2.0 * d) * x;
    assert 2.0 * (e * r) == e * (2.0 * r);
  }

  // The square of a root of order 2h is a root of order h.
  lemma TwiddleDouble(t: Trig, h: nat, k: nat)
    requires h > 0
    ensures Twiddle(t, 2 * h, 2 * k) == Twiddle(t, h, k)
  {
    assert (2 * h) as real == 2.0 * h as real && (2 * k) as real == 2.0 * k as real;
    HalfStep(t.pi * 2.0, h as real, k as real);
    assert Angle(t, 2 * h, 2 * k) == Angle(t, h, k);
  }

  // Half way round is -1.
  lemma TwiddleHalf(t: Trig, h: nat)
    requires h > 0 && Lawful(t)
    ensures Twiddle(t, 2 * h, h) == C(-1.0, 0.0)
  {
    assert (2 * h) as real == 2.0 * h as real;
    HalfStep(t.pi, h as real, 0.0);
    assert Angle(t, 2 * h, h) == t.pi;
  }

  lemma TwiddleOpposite(t: Trig, h: nat, k: nat)
    requires h > 0 && Lawful(t)
    ensures Twiddle(t, 2 * h, k + h) == Neg(Twiddle(t, 2 * h, k))
  {
    TwiddleAdd(t, 2 * h, k, h);
    TwiddleHalf(t, h);
    hide Twiddle;
  }

  lemma {:induction false} TwiddleTurns(t: Trig, size: nat, turns: nat)
    requires size > 0 && Lawful(t)
    ensures Twiddle(t, size, turns * size) == ONE
  {
    if turns == 0 {
      TwiddleZero(t, size);
    } else {
      TwiddleTurns(t, size, turns - 1);
      TwiddleDouble(t, size, size);
      TwiddleOpposite(t, size, size);
      TwiddleHalf(t, size);
      assert turns * size == (turns - 1) * size + size;
      TwiddleAdd(t, size, (turns - 1) * size, size);
      hide Twiddle;
    }
  }

  lemma TwiddlePeriod(t: Trig, size: nat, m: nat, k: nat)
    requires size > 0 && Lawful(t)
    ensures Twiddle(t, size, m * (k + size)) == Twiddle(t, size, m * k)
  {
    assert m * (k + size) == m * k + m * size;
    TwiddleAdd(t, size, m * k, m * size);
    TwiddleTurns(t, size, m);
    hide Twiddle;
  }
}
