/** Powers of two and the bit-reversal index map used by the radix-2 FFT. */
module Bits {

  /** 2^k. */
  function Pow2(k: nat): (r: nat)
    ensures r >= 1
  {
    if k == 0 then 1 else 2 * Pow2(k - 1)
  }

  lemma {:induction false} Pow2Monotone(a: nat, b: nat)
    requires a <= b
    ensures Pow2(a) <= Pow2(b)
  {
    if a < b {
      Pow2Monotone(a, b - 1);
    }
  }

  /** Powers of two are ordered as their exponents. */
  lemma Pow2Le(a: nat, b: nat)
    ensures Pow2(a) <= Pow2(b) <==> a <= b
  {
    if a <= b {
      Pow2Monotone(a, b);
    } else {
      Pow2Monotone(b + 1, a);
    }
  }

  /** i is a whole number of blocks of size L: 0, L, 2L, ... */
  predicate BlockStart(i: nat, L: nat)
    requires L > 0
    decreases i
  {
    i == 0 || (i >= L && BlockStart(i - L, L))
  }

  /** A block-aligned index below a block-aligned bound leaves room for a whole block. */
  lemma {:induction false} BlockStartRoom(i: nat, n: nat, L: nat)
    requires L > 0 && BlockStart(i, L) && BlockStart(n, L) && i < n
    ensures i + L <= n
    decreases i
  {
    if i > 0 {
      BlockStartRoom(i - L, n - L, L);
    }
  }

  lemma {:induction false} BlockStartAdd(a: nat, b: nat, L: nat)
    requires L > 0 && BlockStart(a, L) && BlockStart(b, L)
    ensures BlockStart(a + b, L)
    decreases a
  {
    if a > 0 {
      BlockStartAdd(a - L, b, L);
      assert a + b - L == (a - L) + b;
    }
  }

  /** Every index lies in some block: the block start is returned. */
  lemma {:induction false} BlockOf(p: nat, L: nat) returns (i: nat)
    requires L > 0
    ensures BlockStart(i, L) && i <= p < i + L
    decreases p
  {
    if p < L {
      i := 0;
    } else {
      var below := BlockOf(p - L, L);
      i := below + L;
      assert BlockStart(i, L) by {
        assert i - L == below;
      }
    }
  }

  /** ... and in only one: two blocks that share an index are the same block. */
  lemma {:induction false} BlockUnique(i1: nat, i2: nat, L: nat, p: nat)
    requires L > 0 && BlockStart(i1, L) && BlockStart(i2, L)
    requires i1 <= p < i1 + L && i2 <= p < i2 + L
    ensures i1 == i2
    decreases p
  {
    if i1 > 0 && i2 > 0 {
      BlockUnique(i1 - L, i2 - L, L, p - L);
    }
  }

  /** 2^k is a whole number of blocks of size 2^c when c <= k. */
  lemma {:induction false} Pow2Blocks(c: nat, k: nat)
    requires c <= k
    ensures BlockStart(Pow2(k), Pow2(c))
  {
    if c == k {
      assert BlockStart(0, Pow2(c));
    } else {
      Pow2Blocks(c, k - 1);
      BlockStartAdd(Pow2(k - 1), Pow2(k - 1), Pow2(c));
    }
  }

  /** The exponent of the smallest power of two that is at least v. */
  function Log2Ceil(v: int): (k: nat)
    requires v >= 1
    ensures Pow2(k) >= v
    ensures k == 0 || Pow2(k - 1) < v
    decreases v
  {
    if v == 1 then 0 else 1 + Log2Ceil((v + 1) / 2)
  }

  /** The smallest power of two that is at least v. */
  function NextPowerOfTwo(v: int): (r: nat)
    requires v >= 1
    ensures r >= v
  {
    Pow2(Log2Ceil(v))
  }

  /** No power of two at least v lies below NextPowerOfTwo(v), and a power of two is its own. */
  lemma NextPowerOfTwoLeast(v: int, k: nat)
    requires v >= 1 && Pow2(k) >= v
    ensures NextPowerOfTwo(v) <= Pow2(k)
    ensures Pow2(k) == v ==> NextPowerOfTwo(v) == v
  {
    var c := Log2Ceil(v);
    if c > 0 {
      Pow2Le(k, c - 1);
    }
    Pow2Le(c, k);
  }

  /** The little-endian binary digits of x, k of them (higher digits are dropped). */
  function ToBits(x: nat, k: nat): (r: seq<bool>)
    ensures |r| == k
  {
    if k == 0 then [] else [x % 2 == 1] + ToBits(x / 2, k - 1)
  }

  /** The number whose little-endian binary digits are s. */
  function FromBits(s: seq<bool>): nat
  {
    if |s| == 0 then 0 else (if s[0] then 1 else 0) + 2 * FromBits(s[1..])
  }

  function Reverse(s: seq<bool>): (r: seq<bool>)
    ensures |r| == |s|
  {
    if |s| == 0 then [] else Reverse(s[1..]) + [s[0]]
  }

  /** The bit-reverse of x over k bits: the lowest bit of x becomes bit k - 1 of the result. */
  function Rev(x: nat, k: nat): (r: nat)
    ensures r < Pow2(k)
  {
    if k == 0 then 0 else (if x % 2 == 1 then Pow2(k - 1) else 0) + Rev(x / 2, k - 1)
  }

  lemma {:induction false} ToBitsFromBits(s: seq<bool>)
    ensures ToBits(FromBits(s), |s|) == s
  {
    if |s| > 0 {
      ToBitsFromBits(s[1..]);
      var f := FromBits(s[1..]);
      LowBit(s[0], f);
      assert ToBits(FromBits(s), |s|) == [s[0]] + ToBits(f, |s| - 1);
      assert s == [s[0]] + s[1..];
    }
  }

  /** Appending a low bit b to f: the parity gives b back and halving gives f back. */
  lemma LowBit(b: bool, f: nat)
    ensures ((if b then 1 else 0) + 2 * f) % 2 == 1 <==> b
    ensures ((if b then 1 else 0) + 2 * f) / 2 == f
  {
  }

  lemma {:induction false} FromBitsToBits(x: nat, k: nat)
    requires x < Pow2(k)
    ensures FromBits(ToBits(x, k)) == x
  {
    if k > 0 {
      FromBitsToBits(x / 2, k - 1);
      assert ToBits(x, k)[1..] == ToBits(x / 2, k - 1);
    }
  }

  lemma {:induction false} ReverseReverse(s: seq<bool>)
    ensures Reverse(Reverse(s)) == s
  {
    if |s| > 0 {
      ReverseReverse(s[1..]);
      ReverseAppend(Reverse(s[1..]), s[0]);
    }
  }

  lemma {:induction false} ReverseAppend(s: seq<bool>, b: bool)
    ensures Reverse(s + [b]) == [b] + Reverse(s)
  {
    if |s| > 0 {
      assert (s + [b])[1..] == s[1..] + [b];
      ReverseAppend(s[1..], b);
    } else {
      assert s + [b] == [b];
    }
  }

  lemma {:induction false} FromBitsAppend(s: seq<bool>, b: bool)
    ensures FromBits(s + [b]) == FromBits(s) + (if b then Pow2(|s|) else 0)
  {
    if |s| > 0 {
      assert (s + [b])[1..] == s[1..] + [b];
      FromBitsAppend(s[1..], b);
    } else {
      assert s + [b] == [b];
      var one: seq<bool> := [b];
      assert one[1..] == [];
    }
  }

  lemma {:induction false} RevZero(k: nat)
    ensures Rev(0, k) == 0
  {
    if k > 0 {
      RevZero(k - 1);
    }
  }

  /** Rev agrees with reading the k-bit digit string of x backwards. */
  lemma {:induction false} RevBits(x: nat, k: nat)
    ensures Rev(x, k) == FromBits(Reverse(ToBits(x, k)))
  {
    if k > 0 {
      RevBits(x / 2, k - 1);
      var t := ToBits(x / 2, k - 1);
      assert ToBits(x, k) == [x % 2 == 1] + t;
      assert ([x % 2 == 1] + t)[1..] == t;
      assert Reverse(ToBits(x, k)) == Reverse(t) + [x % 2 == 1];
      FromBitsAppend(Reverse(t), x % 2 == 1);
    }
  }

  /** Bit reversal over k bits is its own inverse on [0, 2^k). */
  lemma RevInvolution(x: nat, k: nat)
    requires x < Pow2(k)
    ensures Rev(Rev(x, k), k) == x
  {
    var r := Reverse(ToBits(x, k));
    RevBits(x, k);
    RevBits(Rev(x, k), k);
    ToBitsFromBits(r);
    ReverseReverse(ToBits(x, k));
    FromBitsToBits(x, k);
  }
}
