// Division and powers of two: facts the solver needs spelled out.
module Arithmetic {

  lemma MulMono(s: nat, a: nat, b: nat)
    requires a <= b
    ensures s * a <= s * b
  {
  }

  lemma MulStep(s: nat, a: nat, b: nat)
    ensures a < b ==> s * a + s <= s * b
  {
    if a < b {
      MulMono(s, a + 1, b);
      assert s * (a + 1) == s * a + s;
    }
  }

  lemma DivUnique(size: nat, q: nat, r: nat)
    requires r < size
    ensures (size * q + r) / size == q && (size * q + r) % size == r
  {
    var a := size * q + r;
    var q', r' := a / size, a % size;
    assert a == size * q' + r' && 0 <= r' < size;
    MulStep(size, q, q');
    MulStep(size, q', q);
  }

  function Pow2(n: nat): (p: nat)
    ensures p > 0
  {
    if n == 0 then 1 else 2 * Pow2(n - 1)
  }

  lemma {:induction false} Pow2Mono(a: nat, b: nat)
    requires a <= b
    ensures Pow2(a) <= Pow2(b)
  {
    if a < b {
      Pow2Mono(a, b - 1);
    }
  }

  lemma Pow2Step(n: nat)
    requires n > 0
    ensures Pow2(n) == 2 * Pow2(n - 1)
  {
  }

  lemma Doubled(p: nat, q: nat)
    ensures 2 * (p * q) == (2 * p) * q
  {
  }

  lemma {:induction false} Pow2Product(a: nat, b: nat)
    ensures Pow2(a + b) == Pow2(a) * Pow2(b)
  {
    if a > 0 {
      Pow2Product(a - 1, b);
      Pow2Step(a);
      Pow2Step(a + b);
      hide Pow2;
      Doubled(Pow2(a - 1), Pow2(b));
    } else {
      assert Pow2(0) == 1;
    }
  }
}
