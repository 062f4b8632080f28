/**
 * The complex-number value type and the in-place iterative radix-2
 * Cooley-Tukey transform of FFTUtils.cs.
 *
 * Floats are modelled as reals. The per-stage twiddle factor
 * wlen = (cos ang, sin ang) is not computed here: it is the value of the
 * parameter `twiddle(length, invert)`, so the model states the index
 * arithmetic and the butterfly algebra exactly, whatever the trigonometry
 * yields.
 */
module FFTUtils {
  import opened Bits

  datatype Complex = Complex(re: real, im: real)

  /** The initial running twiddle `new Complex(1, 0)`. */
  const One := Complex(1.0, 0.0)

  function Add(a: Complex, b: Complex): Complex
  {
    Complex(a.re + b.re, a.im + b.im)
  }

  function Sub(a: Complex, b: Complex): Complex
  {
    Complex(a.re - b.re, a.im - b.im)
  }

  function Mul(a: Complex, b: Complex): Complex
  {
    Complex(a.re * b.re - a.im * b.im, a.re * b.im + a.im * b.re)
  }

  /** (1, 0) is the unit of the product, so the first butterfly of a block uses its odd element untwisted. */
  lemma MulOne(a: Complex)
    ensures Mul(a, One) == a && Mul(One, a) == a
  {
  }

  /** Subtraction undoes addition. */
  lemma AddSubInverse(u: Complex, v: Complex)
    ensures Sub(Add(u, v), v) == u && Add(Sub(u, v), v) == u
  {
  }

  /**
   * The butterfly phase below is stated and proved for an arbitrary complex
   * product `mul`; Compute instantiates it with Mul, the operator * of
   * Complex. The index structure of the transform does not depend on how
   * the product is computed.
   */
  type Product = (Complex, Complex) -> Complex

  /** The running twiddle after j updates `w *= wlen`: wlen^j. */
  function TwiddlePower(wlen: Complex, j: nat, mul: Product): Complex
  {
    if j == 0 then One else mul(TwiddlePower(wlen, j - 1, mul), wlen)
  }

  /** One butterfly on u and the twisted odd element v = x * w: the pair becomes (u + v, u - v). */
  function Butterfly(u: Complex, v: Complex): (Complex, Complex)
  {
    (Add(u, v), Sub(u, v))
  }

  /** The two outputs of a butterfly sum to 2u and differ by 2v. */
  lemma ButterflySumDiff(u: Complex, v: Complex)
    ensures Add(Butterfly(u, v).0, Butterfly(u, v).1) == Add(u, u)
    ensures Sub(Butterfly(u, v).0, Butterfly(u, v).1) == Add(v, v)
  {
  }

  /** The buffer after one in-place butterfly on positions p < q with twiddle w. */
  function PairStep(s: seq<Complex>, p: nat, q: nat, w: Complex, mul: Product): (r: seq<Complex>)
    requires p < q < |s|
    ensures |r| == |s|
  {
    var bf := Butterfly(s[p], mul(s[q], w));
    s[p := bf.0][q := bf.1]
  }

  /** The buffer after the first j butterflies of the block of length 2h starting at i, in loop order. */
  function Partial(s: seq<Complex>, i: nat, h: nat, j: nat, wlen: Complex, mul: Product): (r: seq<Complex>)
    requires i + 2 * h <= |s| && j <= h
    ensures |r| == |s|
  {
    if j == 0 then s
    else PairStep(Partial(s, i, h, j - 1, wlen, mul), i + j - 1, i + j - 1 + h, TwiddlePower(wlen, j - 1, mul), mul)
  }

  /** The buffer after all L/2 butterflies of the block [i, i + L). */
  function BlockAt(s: seq<Complex>, i: nat, L: nat, wlen: Complex, mul: Product): (r: seq<Complex>)
    requires L >= 2 && L % 2 == 0 && i + L <= |s|
    ensures |r| == |s|
  {
    Partial(s, i, L / 2, L / 2, wlen, mul)
  }

  /** One butterfly stage of block length L over the blocks starting at i, i + L, ... that fit in the buffer. */
  function StageFrom(s: seq<Complex>, i: nat, L: nat, wlen: Complex, mul: Product): (r: seq<Complex>)
    requires L >= 2 && L % 2 == 0
    ensures |r| == |s|
    decreases |s| - i
  {
    if |s| < i + L then s else StageFrom(BlockAt(s, i, L, wlen, mul), i + L, L, wlen, mul)
  }

  /** The butterfly stages c, c + 1, ..., k, of block lengths 2^c, ..., 2^k, each with its twiddle factor. */
  function StagesFrom(s: seq<Complex>, c: nat, k: nat, twiddle: (int, bool) -> Complex, invert: bool, mul: Product): (r: seq<Complex>)
    requires c >= 1
    ensures |r| == |s|
    decreases k + 1 - c
  {
    if k < c then s
    else StagesFrom(StageFrom(s, 0, Pow2(c), twiddle(Pow2(c), invert), mul), c + 1, k, twiddle, invert, mul)
  }

  /** The buffer reordered so that position p holds the element at index Rev(p, k). */
  function BitReversed(s: seq<Complex>, k: nat): (r: seq<Complex>)
    requires |s| == Pow2(k)
    ensures |r| == |s|
  {
    seq(|s|, p requires 0 <= p < |s| => s[Rev(p, k)])
  }

  /** Every element divided, componentwise, by n: multiplying back by n restores it. */
  function Normalized(s: seq<Complex>, n: nat): (r: seq<Complex>)
    requires n > 0
    ensures |r| == |s|
    ensures forall p :: 0 <= p < |s| ==> r[p].re * (n as real) == s[p].re && r[p].im * (n as real) == s[p].im
  {
    seq(|s|, p requires 0 <= p < |s| => Complex(s[p].re / (n as real), s[p].im / (n as real)))
  }

  /** What Compute leaves in a buffer of length 2^k. */
  function Transform(s: seq<Complex>, invert: bool, twiddle: (int, bool) -> Complex, k: nat): (r: seq<Complex>)
    requires |s| == Pow2(k)
    ensures |r| == |s|
  {
    var t := StagesFrom(BitReversed(s, k), 1, k, twiddle, invert, Mul);
    if invert then Normalized(t, |s|) else t
  }

  /** The bit-reversal reordering moves the element at p to Rev(p, k), and doing it twice restores the buffer. */
  lemma BitReversedMoves(s: seq<Complex>, k: nat)
    requires |s| == Pow2(k)
    ensures forall p :: 0 <= p < |s| ==> BitReversed(s, k)[Rev(p, k)] == s[p]
    ensures BitReversed(BitReversed(s, k), k) == s
  {
    forall p | 0 <= p < |s|
      ensures BitReversed(s, k)[Rev(p, k)] == s[p]
    {
      RevInvolution(p, k);
    }
    forall p | 0 <= p < |s|
      ensures BitReversed(BitReversed(s, k), k)[p] == s[p]
    {
      RevInvolution(p, k);
    }
  }

  /** The first j butterflies of a block leave every position outside their pairs untouched. */
  lemma {:induction false} PartialUntouched(s: seq<Complex>, i: nat, h: nat, j: nat, wlen: Complex, mul: Product, p: nat)
    requires i + 2 * h <= |s| && j <= h && p < |s|
    requires !(i <= p < i + j) && !(i + h <= p < i + h + j)
    ensures Partial(s, i, h, j, wlen, mul)[p] == s[p]
  {
    if j > 0 {
      PartialUntouched(s, i, h, j - 1, wlen, mul, p);
    }
  }

  /** After j butterflies, position i + t (t < j) holds the sum output of butterfly t, computed from the original pair. */
  lemma {:induction false} PartialLow(s: seq<Complex>, i: nat, h: nat, j: nat, wlen: Complex, mul: Product, p: nat)
    requires i + 2 * h <= |s| && j <= h && i <= p < i + j
    ensures Partial(s, i, h, j, wlen, mul)[p] == Butterfly(s[p], mul(s[p + h], TwiddlePower(wlen, p - i, mul))).0
  {
    if p == i + j - 1 {
      PartialUntouched(s, i, h, j - 1, wlen, mul, p);
      PartialUntouched(s, i, h, j - 1, wlen, mul, p + h);
    } else {
      PartialLow(s, i, h, j - 1, wlen, mul, p);
    }
  }

  /** After j butterflies, position i + h + t (t < j) holds the difference output of butterfly t, computed from the original pair. */
  lemma {:induction false} PartialHigh(s: seq<Complex>, i: nat, h: nat, j: nat, wlen: Complex, mul: Product, p: nat)
    requires i + 2 * h <= |s| && j <= h && i + h <= p < i + h + j
    ensures Partial(s, i, h, j, wlen, mul)[p] == Butterfly(s[p - h], mul(s[p], TwiddlePower(wlen, p - i - h, mul))).1
  {
    if p == i + j - 1 + h {
      PartialUntouched(s, i, h, j - 1, wlen, mul, p - h);
      PartialUntouched(s, i, h, j - 1, wlen, mul, p);
    } else {
      PartialHigh(s, i, h, j - 1, wlen, mul, p);
    }
  }

  /** Butterfly j of the block at i writes exactly positions i + j and i + j + L/2, from their old values, with twiddle wlen^j. */
  lemma BlockIndex(s: seq<Complex>, i: nat, L: nat, wlen: Complex, mul: Product, j: nat)
    requires L >= 2 && L % 2 == 0 && i + L <= |s| && j < L / 2
    ensures BlockAt(s, i, L, wlen, mul)[i + j] == Butterfly(s[i + j], mul(s[i + j + L / 2], TwiddlePower(wlen, j, mul))).0
    ensures BlockAt(s, i, L, wlen, mul)[i + j + L / 2] == Butterfly(s[i + j], mul(s[i + j + L / 2], TwiddlePower(wlen, j, mul))).1
  {
    PartialLow(s, i, L / 2, L / 2, wlen, mul, i + j);
    PartialHigh(s, i, L / 2, L / 2, wlen, mul, i + j + L / 2);
  }

  /** A block's butterflies leave every position outside the block alone. */
  lemma BlockFrame(s: seq<Complex>, i: nat, L: nat, wlen: Complex, mul: Product, p: nat)
    requires L >= 2 && L % 2 == 0 && i + L <= |s| && p < |s| && (p < i || i + L <= p)
    ensures BlockAt(s, i, L, wlen, mul)[p] == s[p]
  {
    PartialUntouched(s, i, L / 2, L / 2, wlen, mul, p);
  }

  /** A stage that starts at block i leaves the positions before i alone. */
  lemma {:induction false} StageFromBelow(s: seq<Complex>, i: nat, L: nat, wlen: Complex, mul: Product, p: nat)
    requires L >= 2 && L % 2 == 0 && p < i && p < |s|
    ensures StageFrom(s, i, L, wlen, mul)[p] == s[p]
    decreases |s| - i
  {
    if i + L <= |s| {
      BlockFrame(s, i, L, wlen, mul, p);
      StageFromBelow(BlockAt(s, i, L, wlen, mul), i + L, L, wlen, mul, p);
    }
  }

  /**
   * Within a stage of block length L, the block starting at i (a whole
   * number of blocks after i0) sends positions i + j and i + j + L/2 to the
   * butterfly of their old values with twiddle wlen^j.
   */
  lemma {:induction false} StageAt(s: seq<Complex>, i0: nat, L: nat, wlen: Complex, mul: Product, i: nat, j: nat)
    requires L >= 2 && L % 2 == 0 && i0 <= i && BlockStart(i - i0, L)
    requires i + L <= |s| && j < L / 2
    ensures StageFrom(s, i0, L, wlen, mul)[i + j] == Butterfly(s[i + j], mul(s[i + j + L / 2], TwiddlePower(wlen, j, mul))).0
    ensures StageFrom(s, i0, L, wlen, mul)[i + j + L / 2] == Butterfly(s[i + j], mul(s[i + j + L / 2], TwiddlePower(wlen, j, mul))).1
    decreases i - i0
  {
    var b := BlockAt(s, i0, L, wlen, mul);
    if i0 == i {
      BlockIndex(s, i, L, wlen, mul, j);
      StageFromBelow(b, i + L, L, wlen, mul, i + j);
      StageFromBelow(b, i + L, L, wlen, mul, i + j + L / 2);
    } else {
      BlockFrame(s, i0, L, wlen, mul, i + j);
      BlockFrame(s, i0, L, wlen, mul, i + j + L / 2);
      StageAt(b, i0 + L, L, wlen, mul, i, j);
    }
  }

  /**
   * A whole stage in closed form. Position p lies in exactly one block
   * [i, i + L) (BlockUnique); in the lower half of that block it takes the
   * sum output of its pair, in the upper half the difference output.
   */
  lemma StageSpec(s: seq<Complex>, L: nat, wlen: Complex, mul: Product, p: nat) returns (i: nat)
    requires L >= 2 && L % 2 == 0 && BlockStart(|s|, L) && p < |s|
    ensures BlockStart(i, L) && i <= p < i + L && i + L <= |s|
    ensures p < i + L / 2 ==>
      StageFrom(s, 0, L, wlen, mul)[p] == Butterfly(s[p], mul(s[p + L / 2], TwiddlePower(wlen, p - i, mul))).0
    ensures i + L / 2 <= p ==>
      StageFrom(s, 0, L, wlen, mul)[p] == Butterfly(s[p - L / 2], mul(s[p], TwiddlePower(wlen, p - i - L / 2, mul))).1
  {
    i := BlockOf(p, L);
    BlockStartRoom(i, |s|, L);
    if p < i + L / 2 {
      StageAt(s, 0, L, wlen, mul, i, p - i);
    } else {
      StageAt(s, 0, L, wlen, mul, i, p - i - L / 2);
    }
  }

  /** A one-element buffer comes back unchanged in both directions. */
  lemma TransformSingle(s: seq<Complex>, invert: bool, twiddle: (int, bool) -> Complex)
    requires |s| == 1
    ensures Transform(s, invert, twiddle, 0) == s
  {
    assert BitReversed(s, 0)[0] == s[0];
    assert Normalized(s, 1)[0] == s[0];
  }

  /** Exchanges a[i] and a[j]; every other position keeps its value. */
  method Swap(a: array<Complex>, i: int, j: int)
    requires 0 <= i < a.Length && 0 <= j < a.Length
    modifies a
    ensures a[..] == old(a[..])[i := old(a[j])][j := old(a[i])]
    ensures multiset(a[..]) == old(multiset(a[..]))
  {
    var temp := a[i];
    a[i] := a[j];
    a[j] := temp;
  }

  /**
   * One step of the bit-reversal counter: given j = Rev(i - 1), clear the
   * set top bits of j from the highest down and set the first clear one,
   * which yields Rev(i). The mask `bit` stays positive because i < n.
   */
  method AdvanceReversed(n: int, j: int, ghost i: nat, ghost k: nat) returns (next: int)
    requires n == Pow2(k) && 1 <= i < n && j == Rev(i - 1, k)
    ensures next == Rev(i, k)
  {
    next := j;
    var bit := n / 2;
    ghost var x: nat := i - 1;
    ghost var m: nat := k;
    while next >= bit
      invariant 1 <= m <= k
      invariant bit == Pow2(m - 1)
      invariant next == Rev(x, m)
      invariant x + 1 < Pow2(m)
      invariant Rev(x + 1, m) == Rev(i, k)
      decreases m
    {
      assert x % 2 == 1 && (x + 1) / 2 == x / 2 + 1;
      next := next - bit;
      bit := bit / 2;
      x, m := x / 2, m - 1;
    }
    assert x % 2 == 0 && (x + 1) / 2 == x / 2;
    next := next + bit;
  }

  /** One step of the bit-reversal loop: index i trades places with Rev(i) when i < Rev(i). */
  function SwapStep(s: seq<Complex>, i: nat, k: nat): (r: seq<Complex>)
    requires |s| == Pow2(k) && i < |s|
    ensures |r| == |s|
  {
    var j := Rev(i, k);
    if i < j then s[i := s[j]][j := s[i]] else s
  }

  /** The bit-reversal loop from index i to the end. */
  function SwapsFrom(s: seq<Complex>, i: nat, k: nat): (r: seq<Complex>)
    requires |s| == Pow2(k)
    ensures |r| == |s|
    decreases |s| - i
  {
    if |s| <= i then s else SwapsFrom(SwapStep(s, i, k), i + 1, k)
  }

  /** Where position q of the buffer takes its element from once the indices before i are handled. */
  ghost function Placed(q: nat, i: nat, k: nat): nat
  {
    if q < i || Rev(q, k) < i then Rev(q, k) else q
  }

  /** Every position q of s holds the element of s0 at Placed(q, i, k). */
  ghost predicate PlacedState(s: seq<Complex>, s0: seq<Complex>, i: nat, k: nat)
  {
    |s| == |s0| && forall q {:trigger Placed(q, i, k)} :: 0 <= q < |s| ==> Placed(q, i, k) < |s0| && s[q] == s0[Placed(q, i, k)]
  }

  /** Handling index i moves both ends of the pair (i, Rev(i)) to their reversed places and leaves every other position where Placed had it. */
  lemma StepPlaced(s: seq<Complex>, s0: seq<Complex>, i: nat, k: nat, q: nat)
    requires |s| == Pow2(k) && 1 <= i < |s| && q < |s|
    requires PlacedState(s, s0, i, k)
    ensures Placed(q, i + 1, k) < |s0| && SwapStep(s, i, k)[q] == s0[Placed(q, i + 1, k)]
  {
    var r := Rev(i, k);
    RevInvolution(q, k);
    RevInvolution(i, k);
    assert Placed(q, i, k) < |s0| && s[q] == s0[Placed(q, i, k)];
    if i < r {
      if q == i {
        assert Placed(r, i, k) < |s0| && s[r] == s0[Placed(r, i, k)];
      } else if q == r {
        assert Placed(i, i, k) < |s0| && s[i] == s0[Placed(i, i, k)];
      } else {
        assert Placed(q, i + 1, k) == Placed(q, i, k);
      }
    } else {
      assert Placed(q, i + 1, k) == Placed(q, i, k);
    }
  }

  /** Handling index i takes a state placed for i to one placed for i + 1. */
  lemma PlacedNext(s: seq<Complex>, s0: seq<Complex>, i: nat, k: nat)
    requires |s| == Pow2(k) && 1 <= i < |s|
    requires PlacedState(s, s0, i, k)
    ensures PlacedState(SwapStep(s, i, k), s0, i + 1, k)
  {
    forall q | 0 <= q < |s|
      ensures Placed(q, i + 1, k) < |s0| && SwapStep(s, i, k)[q] == s0[Placed(q, i + 1, k)]
    {
      StepPlaced(s, s0, i, k, q);
    }
  }

  /** Once every index is handled, each position holds the element at its bit-reversed index. */
  lemma PlacedDone(s: seq<Complex>, s0: seq<Complex>, k: nat)
    requires |s| == Pow2(k) && PlacedState(s, s0, |s|, k)
    ensures s == BitReversed(s0, k)
  {
    forall q | 0 <= q < |s|
      ensures s[q] == BitReversed(s0, k)[q]
    {
      assert Placed(q, |s|, k) == Rev(q, k);
    }
  }

  /** Running the loop from any correctly placed state at i ends in the bit-reversed reordering of s0. */
  lemma {:induction false} SwapsFromReverses(s: seq<Complex>, s0: seq<Complex>, i: nat, k: nat)
    requires |s| == Pow2(k) && 1 <= i <= |s|
    requires PlacedState(s, s0, i, k)
    ensures SwapsFrom(s, i, k) == BitReversed(s0, k)
    decreases |s| - i
  {
    if i == |s| {
      PlacedDone(s, s0, k);
    } else {
      PlacedNext(s, s0, i, k);
      SwapsFromReverses(SwapStep(s, i, k), s0, i + 1, k);
    }
  }

  /** The whole bit-reversal loop, started at index 1 as in Compute, yields BitReversed. */
  lemma SwapsReverse(s: seq<Complex>, k: nat)
    requires |s| == Pow2(k)
    ensures SwapsFrom(s, 1, k) == BitReversed(s, k)
  {
    RevZero(k);
    forall q | 0 <= q < |s|
      ensures Placed(q, 1, k) == q
    {
      RevInvolution(q, k);
    }
    SwapsFromReverses(s, s, 1, k);
  }

  /** The bit-reversal phase: element i and element Rev(i) are swapped once, when i < Rev(i). */
  method BitReversePermute(data: array<Complex>, ghost k: nat)
    requires data.Length == Pow2(k)
    modifies data
    ensures data[..] == BitReversed(old(data[..]), k)
    ensures multiset(data[..]) == old(multiset(data[..]))
  {
    ghost var s0 := data[..];
    var n := data.Length;
    RevZero(k);
    var i, j := 1, 0;
    while i < n
      invariant 1 <= i <= n
      invariant j == Rev(i - 1, k)
      invariant SwapsFrom(data[..], i, k) == SwapsFrom(s0, 1, k)
      invariant multiset(data[..]) == multiset(s0)
    {
      j := AdvanceReversed(n, j, i, k);
      if i < j {
        Swap(data, i, j);
      }
      i := i + 1;
    }
    SwapsReverse(s0, k);
  }

  /** One butterfly in place: u = data[p], v = data[q] * w; data[p] becomes u + v and data[q] becomes u - v. */
  method ButterflyPair(data: array<Complex>, p: nat, q: nat, w: Complex, mul: Product)
    requires p < q < data.Length
    modifies data
    ensures data[..] == PairStep(old(data[..]), p, q, w, mul)
  {
    var u := data[p];
    var v := mul(data[q], w);
    data[p] := Add(u, v);
    data[q] := Sub(u, v);
  }

  /** The butterflies of one block [i, i + length): offset j pairs with j + length/2, twiddle wlen^j. */
  method ButterflyBlock(data: array<Complex>, i: nat, length: nat, wlen: Complex, mul: Product)
    requires length >= 2 && length % 2 == 0 && i + length <= data.Length
    modifies data
    ensures data[..] == BlockAt(old(data[..]), i, length, wlen, mul)
  {
    ghost var s0 := data[..];
    var w := One;
    var j := 0;
    while j < length / 2
      invariant 0 <= j <= length / 2
      invariant w == TwiddlePower(wlen, j, mul)
      invariant data[..] == Partial(s0, i, length / 2, j, wlen, mul)
    {
      ButterflyPair(data, i + j, i + j + length / 2, w, mul);
      w := mul(w, wlen);
      j := j + 1;
    }
  }

  /** One butterfly stage over the blocks [0, L), [L, 2L), ... of the buffer, in place. */
  method ButterflyStage(data: array<Complex>, length: nat, wlen: Complex, mul: Product)
    requires length >= 2 && length % 2 == 0 && BlockStart(data.Length, length)
    modifies data
    ensures data[..] == StageFrom(old(data[..]), 0, length, wlen, mul)
  {
    ghost var s0 := data[..];
    var n := data.Length;
    var i := 0;
    while i < n
      invariant i <= n && BlockStart(i, length)
      invariant StageFrom(data[..], i, length, wlen, mul) == StageFrom(s0, 0, length, wlen, mul)
      decreases n - i
    {
      BlockStartRoom(i, n, length);
      ButterflyBlock(data, i, length, wlen, mul);
      BlockStartAdd(i, length, length);
      i := i + length;
    }
  }

  /** All butterfly stages, for block lengths 2, 4, ..., n. */
  method ButterflyStages(data: array<Complex>, invert: bool, twiddle: (int, bool) -> Complex, mul: Product, ghost k: nat)
    requires data.Length == Pow2(k)
    modifies data
    ensures data[..] == StagesFrom(old(data[..]), 1, k, twiddle, invert, mul)
  {
    ghost var s0 := data[..];
    var n := data.Length;
    var length := 2;
    ghost var c: nat := 1;
    while length <= n
      invariant 1 <= c <= k + 1
      invariant length == Pow2(c)
      invariant StagesFrom(data[..], c, k, twiddle, invert, mul) == StagesFrom(s0, 1, k, twiddle, invert, mul)
      decreases k + 1 - c
    {
      Pow2Le(c, k);
      Pow2Blocks(c, k);
      var wlen := twiddle(length, invert);
      ButterflyStage(data, length, wlen, mul);
      length := length * 2;
      c := c + 1;
    }
    Pow2Le(c, k);
  }

  /** The inverse transform's scaling: real and imaginary parts divided by n. */
  method Normalize(data: array<Complex>)
    requires data.Length > 0
    modifies data
    ensures data[..] == Normalized(old(data[..]), data.Length)
  {
    ghost var s0 := data[..];
    var n := data.Length;
    var i := 0;
    while i < n
      invariant 0 <= i <= n
      invariant forall p :: 0 <= p < i ==> data[p] == Complex(s0[p].re / (n as real), s0[p].im / (n as real))
      invariant forall p :: i <= p < n ==> data[p] == s0[p]
    {
      data[i] := Complex(data[i].re / (n as real), data[i].im / (n as real));
      i := i + 1;
    }
  }

  /**
   * FFT.Compute: bit-reversal permutation, butterfly stages, and for the
   * inverse direction division by n. The buffer length must be a power of
   * two; the array is the only storage written.
   */
  method Compute(data: array<Complex>, invert: bool, twiddle: (int, bool) -> Complex, ghost k: nat)
    requires data.Length == Pow2(k)
    modifies data
    ensures data[..] == Transform(old(data[..]), invert, twiddle, k)
  {
    BitReversePermute(data, k);
    ButterflyStages(data, invert, twiddle, Mul, k);
    if invert {
      Normalize(data);
    }
  }
}
