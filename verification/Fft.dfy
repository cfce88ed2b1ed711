// The noise suppressor's in-place radix-2 Fourier transform, over exact complex arithmetic.
module Fft {
  import opened Arithmetic
  import opened Complex

  // ---------- the transform as a sum ----------

  function At(x: seq<C>, i: nat): C {
    if i < |x| then x[i] else ZERO
  }

  function Sample(x: seq<C>, offset: nat, stride: nat, m: nat): C {
    At(x, offset + stride * m)
  }

  function Term(t: Trig, x: seq<C>, offset: nat, stride: nat, count: nat, k: nat, m: nat): C
    requires count > 0
  {
    Mul(Sample(x, offset, stride, m), Twiddle(t, count, m * k))
  }

  // The k-th coefficient of the `count` samples of `x` found at offset, offset + stride, ...
  function StridedDft(t: Trig, x: seq<C>, offset: nat, stride: nat, count: nat, k: nat): C
    requires count > 0
  {
    Sum((m: nat) => Term(t, x, offset, stride, count, k, m), count)
  }

  function Dft(t: Trig, x: seq<C>, k: nat): C
    requires x != []
  {
    StridedDft(t, x, 0, 1, |x|, k)
  }

  function Spectrum(t: Trig, x: seq<C>): seq<C> {
    seq(|x|, k requires 0 <= k < |x| => Dft(t, x, k))
  }

  // The sum with the opposite turning direction.
  function Synthesis(t: Trig, x: seq<C>): seq<C> {
    seq(|x|, j requires 0 <= j < |x| =>
      Sum((k: nat) => Mul(At(x, k), Conj(Twiddle(t, |x|, k * j))), |x|))
  }

  // ---------- splitting a sum by parity ----------

  lemma TermEven(t: Trig, x: seq<C>, offset: nat, stride: nat, h: nat, k: nat, m: nat)
    requires h > 0
    ensures Term(t, x, offset, stride, 2 * h, k, 2 * m) == Term(t, x, offset, 2 * stride, h, k, m)
  {
    hide Twiddle, Mul, At;
    assert 2 * m * k == 2 * (m * k) && stride * (2 * m) == 2 * stride * m;
    TwiddleDouble(t, h, m * k);
  }

  lemma TermOdd(t: Trig, x: seq<C>, offset: nat, stride: nat, h: nat, k: nat, m: nat)
    requires h > 0 && Lawful(t)
    ensures Term(t, x, offset, stride, 2 * h, k, 2 * m + 1) ==
            Mul(Twiddle(t, 2 * h, k), Term(t, x, offset + stride, 2 * stride, h, k, m))
  {
    hide Twiddle, Mul, At, Lawful;
    assert (2 * m + 1) * k == k + 2 * (m * k) && offset + stride * (2 * m + 1) == offset + stride + 2 * stride * m;
    TwiddleAdd(t, 2 * h, k, 2 * (m * k));
    TwiddleDouble(t, h, m * k);
    var a, w, v := Sample(x, offset + stride, 2 * stride, m), Twiddle(t, 2 * h, k), Twiddle(t, h, m * k);
    MulAssoc(a, w, v);
    MulComm(a, w);
    MulAssoc(w, a, v);
  }

  lemma EvenPlusOdd(t: Trig, x: seq<C>, offset: nat, stride: nat, h: nat, k: nat)
    requires h > 0 && Lawful(t)
    ensures StridedDft(t, x, offset, stride, 2 * h, k) ==
            Add(StridedDft(t, x, offset, 2 * stride, h, k),
                Mul(Twiddle(t, 2 * h, k), StridedDft(t, x, offset + stride, 2 * stride, h, k)))
  {
    hide Mul, Add, Term, Twiddle, Lawful;
    var f := (m: nat) => Term(t, x, offset, stride, 2 * h, k, m);
    var e := (m: nat) => Term(t, x, offset, 2 * stride, h, k, m);
    var o := (m: nat) => Term(t, x, offset + stride, 2 * stride, h, k, m);
    var w := Twiddle(t, 2 * h, k);
    var wo := (m: nat) => Mul(w, o(m));
    forall m: nat | m < h ensures f(2 * m) == e(m) && f(2 * m + 1) == wo(m) {
      TermEven(t, x, offset, stride, h, k, m);
      TermOdd(t, x, offset, stride, h, k, m);
    }
    SumEvenOdd(f, e, wo, h);
    SumMul(w, o, wo, h);
  }

  lemma StridedPeriod(t: Trig, x: seq<C>, offset: nat, stride: nat, h: nat, k: nat)
    requires h > 0 && Lawful(t)
    ensures StridedDft(t, x, offset, stride, h, k + h) == StridedDft(t, x, offset, stride, h, k)
  {
    hide Mul, At, Twiddle, Lawful;
    var f := (m: nat) => Term(t, x, offset, stride, h, k + h, m);
    var g := (m: nat) => Term(t, x, offset, stride, h, k, m);
    forall m: nat | m < h ensures f(m) == g(m) {
      TwiddlePeriod(t, h, m, k);
    }
    SumEqual(f, g, h);
  }

  // The butterfly: two transforms of length h give one of length 2h.
  lemma Butterfly(t: Trig, x: seq<C>, offset: nat, stride: nat, h: nat, k: nat)
    requires h > 0 && Lawful(t)
    ensures var e := StridedDft(t, x, offset, 2 * stride, h, k);
            var o := Mul(Twiddle(t, 2 * h, k), StridedDft(t, x, offset + stride, 2 * stride, h, k));
            && StridedDft(t, x, offset, stride, 2 * h, k) == Add(e, o)
            && StridedDft(t, x, offset, stride, 2 * h, k + h) == Sub(e, o)
  {
    EvenPlusOdd(t, x, offset, stride, h, k);
    EvenPlusOdd(t, x, offset, stride, h, k + h);
    StridedPeriod(t, x, offset, 2 * stride, h, k);
    StridedPeriod(t, x, offset + stride, 2 * stride, h, k);
    TwiddleOpposite(t, h, k);
    hide StridedDft, Twiddle, Lawful;
    var w, o := Twiddle(t, 2 * h, k), StridedDft(t, x, offset + stride, 2 * stride, h, k);
    MulNeg(w, o);
    hide Mul;
  }

  // ---------- bit reversal ----------

  // The low `bits` bits of `i`, read backwards.
  function Rev(i: nat, bits: nat): (r: nat)
    ensures r < Pow2(bits)
  {
    if bits == 0 then 0 else (if i % 2 == 1 then Pow2(bits - 1) else 0) + Rev(i / 2, bits - 1)
  }

  // Reading the top bit first.
  lemma {:induction false} RevTop(i: nat, bits: nat)
    requires i < Pow2(bits)
    ensures Rev(i, bits + 1) == 2 * Rev(i, bits)
    ensures Rev(i + Pow2(bits), bits + 1) == 2 * Rev(i, bits) + 1
  {
    if bits == 0 {
      assert Rev(0, 1) == 0 && Rev(1, 1) == 1;
    } else {
      RevTop(i / 2, bits - 1);
      assert (i + Pow2(bits)) / 2 == i / 2 + Pow2(bits - 1) && (i + Pow2(bits)) % 2 == i % 2;
    }
  }

  lemma {:induction false} RevInvolutive(i: nat, bits: nat)
    requires i < Pow2(bits)
    ensures Rev(Rev(i, bits), bits) == i
  {
    if bits > 0 {
      RevInvolutive(i / 2, bits - 1);
      RevTop(Rev(i / 2, bits - 1), bits - 1);
    }
  }

  // ---------- the arrays as complex samples ----------

  function Zip(re: seq<real>, im: seq<real>): seq<C>
    requires |re| == |im|
  {
    seq(|re|, i requires 0 <= i < |re| => C(re[i], im[i]))
  }

  ghost predicate Holds(re: array<real>, im: array<real>, p: nat, c: C)
    requires p < re.Length && p < im.Length
    reads re, im
  {
    re[p] == c.re && im[p] == c.im
  }

  // The next bit-reversed index: the carry runs from the top bit down.
  method NextReversed(j: nat, n: nat, ghost i: nat, ghost bits: nat) returns (next: nat)
    requires n == Pow2(bits) && i + 1 < n && j == Rev(i, bits)
    ensures next == Rev(i + 1, bits)
  {
    next := j;
    var k := n / 2;
    ghost var low: nat, rest: nat := i, bits;
    while k <= next
      invariant rest > 0 && k == Pow2(rest - 1) && low + 1 < Pow2(rest)
      invariant next == Rev(low, rest)
      invariant Rev(low + 1, rest) == Rev(i + 1, bits)
      decreases k
    {
      assert low % 2 == 1;
      assert rest > 1 by {
        assert Pow2(1) == 2;
      }
      assert (low + 1) / 2 == low / 2 + 1 && (low + 1) % 2 == 0;
      next := next - k;
      k := k / 2;
      low, rest := low / 2, rest - 1;
    }
    assert low % 2 == 0;
    assert (low + 1) / 2 == low / 2;
    next := next + k;
  }

  method BitReverse(re: array<real>, im: array<real>, ghost bits: nat)
    requires re != im && re.Length == im.Length == Pow2(bits)
    modifies re, im
    ensures forall p :: 0 <= p < re.Length ==> Holds(re, im, p, old(Zip(re[..], im[..]))[Rev(p, bits)])
  {
    hide Rev, Pow2;
    ghost var x := Zip(re[..], im[..]);
    var n := re.Length;
    var j := 0;
    ReverseZero(bits);
    for i := 0 to n - 1
      invariant j == Rev(i, bits)
      invariant forall p :: 0 <= p < n ==>
                  Holds(re, im, p, x[if p < i || Rev(p, bits) < i then Rev(p, bits) else p])
    {
      RevInvolutive(i, bits);
      forall p: nat | p < n ensures Rev(p, bits) == i <==> p == j {
        RevInvolutive(p, bits);
      }
      if i < j {
        var t := re[i];
        re[i] := re[j];
        re[j] := t;
        t := im[i];
        im[i] := im[j];
        im[j] := t;
      }
      j := NextReversed(j, n, i, bits);
    }
    LastReversed(bits);
    forall p | 0 <= p < n ensures Holds(re, im, p, x[Rev(p, bits)]) {
      RevInvolutive(p, bits);
    }
  }

  lemma {:induction false} ReverseZero(bits: nat)
    ensures Rev(0, bits) == 0
  {
    if bits > 0 {
      ReverseZero(bits - 1);
    }
  }

  lemma {:induction false} LastReversed(bits: nat)
    ensures Rev(Pow2(bits) - 1, bits) == Pow2(bits) - 1
  {
    if bits > 0 {
      LastReversed(bits - 1);
      assert (Pow2(bits) - 1) / 2 == Pow2(bits - 1) - 1;
    }
  }

  // ---------- the butterfly passes ----------

  // What position k of block b holds once blocks of length 2^level are transformed.
  function BlockValue(t: Trig, x: seq<C>, bits: nat, level: nat, b: nat, k: nat): C
    requires level <= bits
  {
    StridedDft(t, x, Rev(b, bits - level), Pow2(bits - level), Pow2(level), k)
  }

  function Quotient(p: nat, size: nat): nat
    requires size > 0
  {
    p / size
  }

  function Rest(p: nat, size: nat): nat
    requires size > 0
  {
    p % size
  }

  function LevelValue(t: Trig, x: seq<C>, bits: nat, level: nat, p: nat): C
    requires level <= bits
  {
    BlockValue(t, x, bits, level, Quotient(p, Pow2(level)), Rest(p, Pow2(level)))
  }

  lemma LevelIsBlock(t: Trig, x: seq<C>, bits: nat, level: nat, b: nat, k: nat, p: nat)
    requires level <= bits && k < Pow2(level) && p == Pow2(level) * b + k
    ensures LevelValue(t, x, bits, level, p) == BlockValue(t, x, bits, level, b, k)
  {
    hide BlockValue, Pow2;
    DivUnique(Pow2(level), b, k);
  }

  lemma ReverseSplits(b: nat, bits: nat)
    requires bits > 0
    ensures Rev(2 * b, bits) == Rev(b, bits - 1) && Rev(2 * b + 1, bits) == Rev(b, bits - 1) + Pow2(bits - 1)
  {
    assert (2 * b + 1) % 2 == 1 && (2 * b + 1) / 2 == b;
  }

  lemma BlockButterfly(t: Trig, x: seq<C>, bits: nat, level: nat, b: nat, k: nat)
    requires level < bits && Lawful(t)
    ensures var e := BlockValue(t, x, bits, level, 2 * b, k);
            var o := Mul(Twiddle(t, 2 * Pow2(level), k), BlockValue(t, x, bits, level, 2 * b + 1, k));
            && BlockValue(t, x, bits, level + 1, b, k) == Add(e, o)
            && BlockValue(t, x, bits, level + 1, b, k + Pow2(level)) == Sub(e, o)
  {
    hide StridedDft, Mul, Add, Sub, Twiddle, Lawful;
    var r := bits - level;
    ReverseSplits(b, r);
    hide Rev;
    var stride, half := Pow2(r - 1), Pow2(level);
    assert Pow2(r) == 2 * stride && Pow2(level + 1) == 2 * half;
    hide Pow2;
    Butterfly(t, x, Rev(b, r - 1), stride, half, k);
  }

  lemma Pow2Next(level: nat)
    ensures Pow2(level + 1) == 2 * Pow2(level) == Pow2(level) + Pow2(level)
  {
  }

  lemma HalfIndex(half: nat, size: nat, b: nat)
    requires size == 2 * half
    ensures half * (2 * b) == size * b && half * (2 * b + 1) == size * b + half
    ensures size * b == 2 * half * b
  {
  }

  // Block b of the next level is made of blocks 2b and 2b + 1 of this one; `even` is position k of it.
  lemma LevelButterfly(t: Trig, x: seq<C>, bits: nat, level: nat, b: nat, k: nat, half: nat, even: nat)
    requires level < bits && Lawful(t) && k < half == Pow2(level)
    requires even == half * (2 * b) + k == 2 * half * b + k && half * (2 * b + 1) == half * (2 * b) + half
    ensures var e := LevelValue(t, x, bits, level, even);
            var o := Mul(Twiddle(t, 2 * half, k), LevelValue(t, x, bits, level, even + half));
            && LevelValue(t, x, bits, level + 1, even) == Add(e, o)
            && LevelValue(t, x, bits, level + 1, even + half) == Sub(e, o)
  {
    hide BlockValue, LevelValue, Mul, Add, Sub, Twiddle, Lawful, Pow2;
    Pow2Next(level);
    FourBlocks(t, x, bits, level, b, k, half, even);
    BlockButterfly(t, x, bits, level, b, k);
  }

  lemma FourBlocks(t: Trig, x: seq<C>, bits: nat, level: nat, b: nat, k: nat, half: nat, even: nat)
    requires level < bits && k < half == Pow2(level) && 2 * half == Pow2(level + 1)
    requires even == half * (2 * b) + k == 2 * half * b + k && half * (2 * b + 1) == half * (2 * b) + half
    ensures LevelValue(t, x, bits, level, even) == BlockValue(t, x, bits, level, 2 * b, k)
    ensures LevelValue(t, x, bits, level, even + half) == BlockValue(t, x, bits, level, 2 * b + 1, k)
    ensures LevelValue(t, x, bits, level + 1, even) == BlockValue(t, x, bits, level + 1, b, k)
    ensures LevelValue(t, x, bits, level + 1, even + half) == BlockValue(t, x, bits, level + 1, b, k + half)
  {
    hide BlockValue, LevelValue, Pow2;
    LevelIsBlock(t, x, bits, level, 2 * b, k, even);
    LevelIsBlock(t, x, bits, level, 2 * b + 1, k, even + half);
    LevelIsBlock(t, x, bits, level + 1, b, k, even);
    LevelIsBlock(t, x, bits, level + 1, b, k + half, even + half);
  }

  // Every position holds its value of this level.
  ghost predicate AtLevel(t: Trig, re: array<real>, im: array<real>, bits: nat, level: nat, x: seq<C>)
    requires re.Length == im.Length && level <= bits
    reads re, im
  {
    forall p :: 0 <= p < re.Length ==> Holds(re, im, p, LevelValue(t, x, bits, level, p))
  }

  // Blocks before `i` are done, and in the block at `i` the first `k` butterflies.
  predicate Done(half: nat, i: nat, k: nat, p: nat) {
    p < i || i <= p < i + k || i + half <= p < i + half + k
  }

  ghost predicate PartlyDone(t: Trig, re: array<real>, im: array<real>, bits: nat, level: nat, next: nat, half: nat,
                             i: nat, k: nat, x: seq<C>)
    requires re.Length == im.Length && level <= bits && next <= bits
    reads re, im
  {
    && (forall p :: 0 <= p < re.Length && Done(half, i, k, p) ==> Holds(re, im, p, LevelValue(t, x, bits, next, p)))
    && (forall p :: 0 <= p < re.Length && !Done(half, i, k, p) ==> Holds(re, im, p, LevelValue(t, x, bits, level, p)))
  }

  method Butterflies(t: Trig, re: array<real>, im: array<real>, ghost bits: nat, ghost x: seq<C>)
    requires Lawful(t) && re != im && re.Length == im.Length == Pow2(bits) && AtLevel(t, re, im, bits, 0, x)
    modifies re, im
    ensures AtLevel(t, re, im, bits, bits, x)
  {
    hide AtLevel, Lawful;
    var n := re.Length;
    var size := 2;
    ghost var level := 0;
    while size <= n
      invariant level <= bits && size == 2 * Pow2(level)
      invariant AtLevel(t, re, im, bits, level, x)
      decreases bits - level
    {
      if level == bits {
        assert false;
      }
      Pow2Product(level + 1, bits - level - 1);
      BlocksPass(t, re, im, size, bits, level, x, Pow2(bits - level - 1));
      size := size * 2;
      level := level + 1;
    }
    if level < bits {
      Pow2Mono(level + 1, bits);
    }
  }

  method BlocksPass(t: Trig, re: array<real>, im: array<real>, size: nat, ghost bits: nat, ghost level: nat,
                    ghost x: seq<C>, ghost blocks: nat)
    requires Lawful(t) && re != im && re.Length == im.Length
    requires level < bits && size == 2 * Pow2(level) && re.Length == size * blocks
    requires AtLevel(t, re, im, bits, level, x)
    modifies re, im
    ensures AtLevel(t, re, im, bits, level + 1, x)
  {
    hide LevelValue, Lawful, Pow2;
    var n := re.Length;
    var half := size / 2;
    var i := 0;
    ghost var b := 0;
    while i < n
      invariant i == size * b && b <= blocks
      invariant PartlyDone(t, re, im, bits, level, level + 1, half, i, 0, x)
      decreases blocks - b
    {
      BlockFits(size, b, blocks);
      BlockPass(t, re, im, size, i, bits, level, x, b);
      i := i + size;
      b := b + 1;
    }
    if b < blocks {
      MulMono(size, b + 1, blocks);
    }
  }

  lemma BlockFits(size: nat, b: nat, blocks: nat)
    requires size * b < size * blocks
    ensures b < blocks && size * b + size == size * (b + 1) <= size * blocks
  {
    if blocks <= b {
      MulMono(size, blocks, b);
    } else {
      MulMono(size, b + 1, blocks);
    }
  }

  method BlockPass(t: Trig, re: array<real>, im: array<real>, size: nat, i: nat, ghost bits: nat, ghost level: nat,
                   ghost x: seq<C>, ghost b: nat)
    requires Lawful(t) && re != im && re.Length == im.Length && level < bits
    requires size == 2 * Pow2(level) && i == size * b && i + size <= re.Length
    requires PartlyDone(t, re, im, bits, level, level + 1, size / 2, i, 0, x)
    modifies re, im
    ensures PartlyDone(t, re, im, bits, level, level + 1, size / 2, i + size, 0, x)
  {
    hide LevelValue, Lawful, Mul, Twiddle, Add, Sub, Pow2;
    var half := size / 2;
    HalfIndex(half, size, b);
    for k := 0 to half
      invariant PartlyDone(t, re, im, bits, level, level + 1, half, i, k, x)
    {
      LevelButterfly(t, x, bits, level, b, k, half, i + k);
      Cross(t, re, im, size, i + k, half, k);
    }
  }

  // One butterfly on the cells `even` and `even + half`.
  method Cross(t: Trig, re: array<real>, im: array<real>, size: nat, even: nat, half: nat, k: nat)
    requires re != im && re.Length == im.Length && size == 2 * half && half > 0 && even + half < re.Length
    modifies re, im
    ensures var e := C(old(re[even]), old(im[even]));
            var o := Mul(Twiddle(t, size, k), C(old(re[even + half]), old(im[even + half])));
            Holds(re, im, even, Add(e, o)) && Holds(re, im, even + half, Sub(e, o))
    ensures forall p :: 0 <= p < re.Length && p != even && p != even + half ==>
            re[p] == old(re[p]) && im[p] == old(im[p])
  {
    var tableStep := t.pi * 2.0 / size as real;
    var angle := tableStep * k as real;
    var wr, wi := t.cos(angle), -t.sin(angle);
    var odd := even + half;
    var tr := wr * re[odd] - wi * im[odd];
    var ti := wr * im[odd] + wi * re[odd];
    assert angle == Angle(t, size, k) && Twiddle(t, size, k) == C(wr, wi);
    assert C(tr, ti) == Mul(Twiddle(t, size, k), C(re[odd], im[odd]));
    re[odd] := re[even] - tr;
    im[odd] := im[even] - ti;
    re[even] := re[even] + tr;
    im[even] := im[even] + ti;
  }

  // ---------- the transform ----------

  // In place, the samples become their Fourier sums.
  method FftRadix2(t: Trig, re: array<real>, im: array<real>, ghost bits: nat)
    requires Lawful(t) && re != im && re.Length == im.Length == Pow2(bits)
    modifies re, im
    ensures Zip(re[..], im[..]) == Spectrum(t, old(Zip(re[..], im[..])))
  {
    hide LevelValue, Lawful, Dft;
    ghost var x := Zip(re[..], im[..]);
    BitReverse(re, im, bits);
    forall p: nat | p < re.Length ensures LevelValue(t, x, bits, 0, p) == x[Rev(p, bits)] {
      LevelZero(t, x, bits, p);
    }
    Butterflies(t, re, im, bits, x);
    forall p: nat | p < re.Length ensures LevelValue(t, x, bits, bits, p) == Dft(t, x, p) {
      LevelTop(t, x, bits, p);
    }
  }

  lemma LevelZero(t: Trig, x: seq<C>, bits: nat, p: nat)
    requires Lawful(t) && |x| == Pow2(bits) && p < |x|
    ensures LevelValue(t, x, bits, 0, p) == x[Rev(p, bits)]
  {
    var r := Rev(p, bits);
    var f := (m: nat) => Term(t, x, r, Pow2(bits), 1, 0, m);
    assert p / 1 == p && p % 1 == 0;
    TwiddleZero(t, 1);
    assert Sum(f, 1) == Add(ZERO, f(0));
    assert f(0) == Mul(x[r], ONE);
  }

  lemma LevelTop(t: Trig, x: seq<C>, bits: nat, p: nat)
    requires |x| == Pow2(bits) && p < |x|
    ensures LevelValue(t, x, bits, bits, p) == Dft(t, x, p)
  {
    LevelIsBlock(t, x, bits, bits, 0, p, p);
    hide LevelValue;
    assert Rev(0, 0) == 0 && Pow2(0) == 1;
  }

  // ---------- the inverse ----------

  method Negate(im: array<real>)
    modifies im
    ensures forall i :: 0 <= i < im.Length ==> im[i] == -old(im[i])
  {
    for i := 0 to im.Length
      invariant forall k :: 0 <= k < i ==> im[k] == -old(im[k])
      invariant forall k :: i <= k < im.Length ==> im[k] == old(im[k])
    {
      im[i] := -im[i];
    }
  }

  function ConjAll(x: seq<C>): seq<C> {
    seq(|x|, i requires 0 <= i < |x| => Conj(x[i]))
  }

  method IfftRadix2(t: Trig, re: array<real>, im: array<real>, ghost bits: nat)
    requires Lawful(t) && re != im && re.Length == im.Length == Pow2(bits)
    modifies re, im
    ensures Zip(re[..], im[..]) == Synthesis(t, old(Zip(re[..], im[..])))
  {
    hide Lawful, Spectrum, Synthesis;
    ghost var x := Zip(re[..], im[..]);
    Negate(im);
    assert Zip(re[..], im[..]) == ConjAll(x);
    FftRadix2(t, re, im, bits);
    ghost var y := Zip(re[..], im[..]);
    Negate(im);
    assert Zip(re[..], im[..]) == ConjAll(y);
    ConjSpectrum(t, x);
  }

  lemma ConjTerm(t: Trig, x: seq<C>, j: nat, m: nat)
    requires m < |x|
    ensures Mul(At(x, m), Conj(Twiddle(t, |x|, m * j))) == Conj(Term(t, ConjAll(x), 0, 1, |x|, j, m))
  {
    hide Twiddle, Mul;
    ConjMul(Conj(x[m]), Twiddle(t, |x|, m * j));
    assert Conj(Conj(x[m])) == x[m];
    assert At(x, m) == x[m] && Sample(ConjAll(x), 0, 1, m) == Conj(x[m]);
  }

  // Conjugating before and after turns the transform around.
  lemma ConjSpectrum(t: Trig, x: seq<C>)
    ensures ConjAll(Spectrum(t, ConjAll(x))) == Synthesis(t, x)
  {
    hide Twiddle, Mul, Term, At;
    forall j: nat | j < |x| ensures Conj(Dft(t, ConjAll(x), j)) == Synthesis(t, x)[j] {
      var f := (m: nat) => Term(t, ConjAll(x), 0, 1, |x|, j, m);
      var g := (k: nat) => Mul(At(x, k), Conj(Twiddle(t, |x|, k * j)));
      forall m: nat | m < |x| ensures g(m) == Conj(f(m)) {
        ConjTerm(t, x, j, m);
      }
      hide Conj;
      SumConj(f, g, |x|);
    }
  }

  function BackTerm(t: Trig, x: seq<C>, offset: nat, stride: nat, count: nat, j: nat, k: nat): C
    requires count > 0
  {
    Mul(StridedDft(t, x, offset, stride, count, k), Conj(Twiddle(t, count, k * j)))
  }

  function Back(t: Trig, x: seq<C>, offset: nat, stride: nat, count: nat, j: nat): C
    requires count > 0
  {
    Sum((k: nat) => BackTerm(t, x, offset, stride, count, j, k), count)
  }

  lemma PairEven(e: C, o: C, c: C)
    ensures Add(Mul(Add(e, o), c), Mul(Sub(e, o), c)) == Scale(2.0, Mul(e, c))
  {
  }

  lemma PairOdd(e: C, o: C, w: C, v: C)
    requires Mul(w, Conj(w)) == ONE
    ensures var c := Conj(Mul(v, w));
            Add(Mul(Add(e, Mul(w, o)), c), Mul(Sub(e, Mul(w, o)), Neg(c))) == Scale(2.0, Mul(o, Conj(v)))
  {
    var c := Conj(Mul(v, w));
    ConjMul(v, w);
    var wo := Mul(w, o);
    assert Mul(wo, c) == Mul(o, Conj(v)) by {
      hide Mul, Conj;
      MulComm(w, o);
      MulAssoc(o, w, c);
      MulComm(Conj(v), Conj(w));
      MulAssoc(w, Conj(w), Conj(v));
      OneMul(Conj(v));
    }
    PairSplit(e, wo, c);
  }

  lemma OneMul(a: C)
    ensures Mul(ONE, a) == a
  {
  }

  lemma PairSplit(e: C, o: C, c: C)
    ensures Add(Mul(Add(e, o), c), Mul(Sub(e, o), Neg(c))) == Scale(2.0, Mul(o, c))
  {
  }

  lemma BackEven(t: Trig, x: seq<C>, offset: nat, stride: nat, h: nat, i: nat, k: nat)
    requires h > 0 && Lawful(t)
    ensures Add(BackTerm(t, x, offset, stride, 2 * h, 2 * i, k), BackTerm(t, x, offset, stride, 2 * h, 2 * i, k + h)) ==
            Scale(2.0, BackTerm(t, x, offset, 2 * stride, h, i, k))
  {
    hide Mul, Add, Sub, Twiddle, StridedDft, Lawful, Conj, Scale;
    Butterfly(t, x, offset, stride, h, k);
    assert k * (2 * i) == 2 * (k * i) && (k + h) * (2 * i) == 2 * ((k + h) * i) && i * k == k * i &&
           i * (k + h) == (k + h) * i;
    TwiddleDouble(t, h, k * i);
    TwiddleDouble(t, h, (k + h) * i);
    TwiddlePeriod(t, h, i, k);
    PairEven(StridedDft(t, x, offset, 2 * stride, h, k),
             Mul(Twiddle(t, 2 * h, k), StridedDft(t, x, offset + stride, 2 * stride, h, k)),
             Conj(Twiddle(t, h, k * i)));
  }

  lemma OddTwiddles(t: Trig, h: nat, i: nat, k: nat)
    requires h > 0 && Lawful(t)
    ensures Twiddle(t, 2 * h, k * (2 * i + 1)) == Mul(Twiddle(t, h, k * i), Twiddle(t, 2 * h, k))
    ensures Twiddle(t, 2 * h, (k + h) * (2 * i + 1)) == Neg(Mul(Twiddle(t, h, k * i), Twiddle(t, 2 * h, k)))
  {
    hide Mul, Twiddle, Lawful, Neg;
    var q := k + h;
    assert k * (2 * i + 1) == 2 * (k * i) + k && q * (2 * i + 1) == 2 * (q * i) + q && i * k == k * i && i * q == q * i;
    TwiddleAdd(t, 2 * h, 2 * (k * i), k);
    TwiddleAdd(t, 2 * h, 2 * (q * i), q);
    TwiddleDouble(t, h, k * i);
    TwiddleDouble(t, h, q * i);
    TwiddlePeriod(t, h, i, k);
    TwiddleOpposite(t, h, k);
    MulNeg(Twiddle(t, h, k * i), Twiddle(t, 2 * h, k));
  }

  lemma BackOdd(t: Trig, x: seq<C>, offset: nat, stride: nat, h: nat, i: nat, k: nat)
    requires h > 0 && Lawful(t)
    ensures Add(BackTerm(t, x, offset, stride, 2 * h, 2 * i + 1, k),
                BackTerm(t, x, offset, stride, 2 * h, 2 * i + 1, k + h)) ==
            Scale(2.0, BackTerm(t, x, offset + stride, 2 * stride, h, i, k))
  {
    var w, v := Twiddle(t, 2 * h, k), Twiddle(t, h, k * i);
    assert Conj(Neg(Mul(v, w))) == Neg(Conj(Mul(v, w)));
    hide Mul, Add, Sub, Twiddle, StridedDft, Lawful, Conj, Scale, Neg;
    Butterfly(t, x, offset, stride, h, k);
    OddTwiddles(t, h, i, k);
    TwiddleUnit(t, 2 * h, k);
    PairOdd(StridedDft(t, x, offset, 2 * stride, h, k), StridedDft(t, x, offset + stride, 2 * stride, h, k), w, v);
  }

  lemma SampleHalf(x: seq<C>, offset: nat, stride: nat, j: nat)
    ensures Sample(x, offset, stride, j) == Sample(x, if j % 2 == 0 then offset else offset + stride, 2 * stride, j / 2)
  {
    var i := j / 2;
    if j % 2 == 0 {
      assert stride * j == stride * (2 * i) == 2 * stride * i;
    } else {
      assert stride * j == stride * (2 * i + 1) == stride + 2 * stride * i;
    }
  }

  // Turning back recovers sample j, `count` times over.
  lemma {:induction false} BackRecovers(t: Trig, x: seq<C>, offset: nat, stride: nat, count: nat, level: nat, j: nat)
    requires Lawful(t) && count == Pow2(level) && j < count
    ensures Back(t, x, offset, stride, count, j) == Scale(count as real, Sample(x, offset, stride, j))
    decreases level
  {
    hide Back, Sample, Lawful, Scale;
    if level == 0 {
      BackOne(t, x, offset, stride);
      ScaleOne(Sample(x, offset, stride, 0));
    } else {
      var h := Pow2(level - 1);
      assert count == 2 * h;
      hide Pow2;
      BackHalves(t, x, offset, stride, h, j);
      var start := if j % 2 == 0 then offset else offset + stride;
      BackRecovers(t, x, start, 2 * stride, h, level - 1, j / 2);
      SampleHalf(x, offset, stride, j);
      ScaleDouble(h, Sample(x, offset, stride, j));
    }
  }

  lemma ScaleDouble(h: nat, c: C)
    ensures Scale(2.0, Scale(h as real, c)) == Scale((2 * h) as real, c)
  {
    assert (2 * h) as real == 2.0 * h as real;
  }

  lemma ScaleOne(c: C)
    ensures Scale(1 as real, c) == c
  {
  }

  lemma BackOne(t: Trig, x: seq<C>, offset: nat, stride: nat)
    requires Lawful(t)
    ensures Back(t, x, offset, stride, 1, 0) == Sample(x, offset, stride, 0)
  {
    var f := (k: nat) => BackTerm(t, x, offset, stride, 1, 0, k);
    var g := (m: nat) => Term(t, x, offset, stride, 1, 0, m);
    TwiddleZero(t, 1);
    assert Sum(f, 1) == Add(ZERO, f(0));
    assert Sum(g, 1) == Add(ZERO, g(0));
    assert g(0) == Mul(At(x, offset), ONE);
    assert f(0) == Mul(StridedDft(t, x, offset, stride, 1, 0), Conj(ONE));
  }

  lemma BackHalves(t: Trig, x: seq<C>, offset: nat, stride: nat, h: nat, j: nat)
    requires h > 0 && Lawful(t)
    ensures Back(t, x, offset, stride, 2 * h, j) ==
            Scale(2.0, Back(t, x, if j % 2 == 0 then offset else offset + stride, 2 * stride, h, j / 2))
  {
    hide BackTerm, Add, Scale, Lawful;
    var i := j / 2;
    var start := if j % 2 == 0 then offset else offset + stride;
    var f := (k: nat) => BackTerm(t, x, offset, stride, 2 * h, j, k);
    var e := (k: nat) => BackTerm(t, x, start, 2 * stride, h, i, k);
    var g := (k: nat) => Scale(2.0, e(k));
    forall k: nat | k < h ensures g(k) == Add(f(k), f(k + h)) {
      if j % 2 == 0 {
        BackEven(t, x, offset, stride, h, i, k);
      } else {
        BackOdd(t, x, offset, stride, h, i, k);
      }
    }
    SumHalves(f, g, h, h);
    SumScale(2.0, e, g, h);
    TwoParts(Sum(f, h), Sum(f, h + h));
  }

  lemma TwoParts(a: C, b: C)
    ensures Add(a, Sub(b, a)) == b
  {
  }

  // The inverse transform of the transform is the input, multiplied by its length.
  lemma SynthesisOfSpectrum(t: Trig, x: seq<C>, bits: nat)
    requires Lawful(t) && |x| == Pow2(bits)
    ensures Synthesis(t, Spectrum(t, x)) == seq(|x|, j requires 0 <= j < |x| => Scale(|x| as real, x[j]))
  {
    var y := Spectrum(t, x);
    hide Lawful, Dft, Pow2;
    forall j: nat | j < |x| ensures Synthesis(t, y)[j] == Scale(|x| as real, x[j]) {
      BackRecovers(t, x, 0, 1, |x|, bits, j);
      assert Sample(x, 0, 1, j) == x[j];
      SpectrumTerms(t, x, j);
    }
  }

  lemma SpectrumTerms(t: Trig, x: seq<C>, j: nat)
    requires j < |x|
    ensures Synthesis(t, Spectrum(t, x))[j] == Back(t, x, 0, 1, |x|, j)
  {
    var y := Spectrum(t, x);
    var f := (k: nat) => BackTerm(t, x, 0, 1, |x|, j, k);
    var g := (k: nat) => Mul(At(y, k), Conj(Twiddle(t, |y|, k * j)));
    hide Mul, Twiddle, StridedDft;
    forall k: nat | k < |x| ensures f(k) == g(k) {
      assert At(y, k) == Dft(t, x, k);
    }
    SumEqual(f, g, |x|);
  }

  method NextPow2(v: nat) returns (n: nat, ghost bits: nat)
    ensures n == Pow2(bits) && v <= n && (bits > 0 ==> n < 2 * v)
  {
    n, bits := 1, 0;
    while n < v
      invariant n == Pow2(bits) && (bits > 0 ==> n < 2 * v)
      decreases v - n
    {
      n := n * 2;
      bits := bits + 1;
    }
  }
}
