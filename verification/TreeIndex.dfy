/** Which of the 32 tree bins a size selects, and the size bits a trie walk consumes. */
module TreeIndex {
  import opened Words

  const NTREEBINS: nat := 32

  /** The position of the highest set bit, which the source gets from `__builtin_clz`. */
  function Log2(x: nat): (k: nat)
    requires x > 0
    ensures Pow2(k) <= x < Pow2(k + 1)
  {
    if x == 1 then 0 else 1 + Log2(x / 2)
  }

  /** `compute_tree_index` as gcc builds it: `S >> 8` is cut to 32 bits before it is examined. */
  function ComputeTreeIndex(s: nat): nat { IndexFrom(s, s / 256 % 0x1_0000_0000) }

  function IndexFrom(s: nat, x: nat): nat {
    if x == 0 then 0
    else if x > 0xFFFF then NTREEBINS - 1
    else
      var k := Log2(x);
      2 * k + ShiftRight(s, k + 7) % 2
  }

  function ShiftRight(s: nat, n: nat): nat { if n == 0 then s else ShiftRight(s / 2, n - 1) }

  /** `minsize_for_tree_index`. */
  function MinSize(i: nat): nat { Pow2(i / 2 + 8) + if i % 2 == 1 then Pow2(i / 2 + 7) else 0 }

  /** Bin `i` is a trie over the `2^BinBits(i)` sizes from `BinLo(i)` on. */
  function BinLo(i: nat): nat { if i == NTREEBINS - 1 then 0 else MinSize(i) }
  function BinBits(i: nat): nat { if i == NTREEBINS - 1 then 64 else i / 2 + 7 }

  /** `leftshift_for_tree_index`. */
  function LeftShift(i: nat): nat
    requires i < NTREEBINS
  {
    if i == NTREEBINS - 1 then 0 else 63 - (i / 2 + 6)
  }

  ghost predicate InBin(s: nat, i: nat) {
    i < NTREEBINS && MinSize(i) <= s && (i < NTREEBINS - 1 ==> s < MinSize(i + 1))
  }

  lemma MinSizeStep(i: nat)
    ensures MinSize(i + 1) == MinSize(i) + Pow2(i / 2 + 7)
  {
    if i % 2 == 0 {
      assert (i + 1) / 2 == i / 2;
    } else {
      assert (i + 1) / 2 == i / 2 + 1;
    }
  }

  lemma {:induction false} MinSizeMono(i: nat, j: nat)
    requires i <= j
    ensures MinSize(i) <= MinSize(j)
  {
    if i < j {
      MinSizeMono(i, j - 1);
      MinSizeStep(j - 1);
    }
  }

  lemma LastMinSize()
    ensures MinSize(31) == 0xC0_0000 && MinSize(0) == 256
  {
    Pow2Values();
  }

  lemma {:induction false} Log2Below(x: nat)
    requires 0 < x <= 0xFFFF
    ensures Log2(x) <= 15
  {
    if Log2(x) > 15 {
      Pow2Mono(16, Log2(x));
      Pow2Values();
    }
  }

  /** Shifted down to two bits, `s` shows its top bit and the bit below it. */
  lemma {:induction false} TopTwoBits(s: nat, n: nat)
    requires 2 * Pow2(n) <= s < 4 * Pow2(n)
    ensures ShiftRight(s, n) == if s < 3 * Pow2(n) then 2 else 3
  {
    if n > 0 {
      TopTwoBits(s / 2, n - 1);
    }
  }

  lemma {:induction false} ShiftIsDiv(s: nat, n: nat)
    ensures ShiftRight(s, n) == s / Pow2(n)
  {
    if n > 0 {
      ShiftIsDiv(s / 2, n - 1);
      HalveThenDiv(s, Pow2(n - 1));
    }
  }

  lemma HalveThenDiv(s: nat, p: nat)
    requires p > 0
    ensures s / 2 / p == s / (2 * p)
  {
    var q, r := s / 2 / p, s / 2 % p;
    assert s / 2 == p * q + r;
    assert s == q * (2 * p) + (2 * r + s % 2);
    DivUnique(s, 2 * p, q, 2 * r + s % 2);
  }

  /** Twice the position of the top bit, plus the bit below it, numbers the bin. */
  lemma TopBits(s: nat, k: nat)
    requires k <= 15 && Pow2(k + 8) <= s < Pow2(k + 9)
    ensures InBin(s, 2 * k + ShiftRight(s, k + 7) % 2)
  {
    TopTwoBits(s, k + 7);
    var t := ShiftRight(s, k + 7);
    if t == 2 {
      EvenBin(s, k);
      assert t % 2 == 0;
    } else {
      OddBin(s, k);
      assert t % 2 == 1;
    }
  }

  lemma EvenBin(s: nat, k: nat)
    requires k <= 15 && 2 * Pow2(k + 7) <= s < 3 * Pow2(k + 7)
    ensures InBin(s, 2 * k)
  {
    EvenOdd(k);
  }

  lemma EvenOdd(k: nat)
    ensures MinSize(2 * k) == 2 * Pow2(k + 7)
    ensures MinSize(2 * k + 1) == 3 * Pow2(k + 7)
    ensures MinSize(2 * k + 2) == 4 * Pow2(k + 7)
  {
    assert (2 * k) / 2 == k && (2 * k) % 2 == 0;
    assert (2 * k + 1) / 2 == k && (2 * k + 1) % 2 == 1;
    assert (2 * k + 2) / 2 == k + 1 && (2 * k + 2) % 2 == 0;
  }

  lemma OddBin(s: nat, k: nat)
    requires k <= 15 && 3 * Pow2(k + 7) <= s < 4 * Pow2(k + 7)
    ensures InBin(s, 2 * k + 1)
  {
    EvenOdd(k);
  }

  lemma DivUnique(s: nat, h: nat, q: nat, r: nat)
    requires h > 0 && s == q * h + r && r < h
    ensures s / h == q && s % h == r
  {
    var d, m := s / h, s % h;
    assert s == h * d + m;
    if d > q {
      MulLess(q, d, h);
    } else if d < q {
      MulLess(d, q, h);
    }
    assert d == q;
  }

  lemma MulLess(a: nat, b: nat, m: nat)
    requires a < b
    ensures a * m + m <= b * m
  {
    MulMono(a + 1, b, m);
  }

  lemma MulMono(a: nat, b: nat, m: nat)
    requires a <= b
    ensures a * m <= b * m
  {}

  lemma IndexBelow(s: nat)
    ensures ComputeTreeIndex(s) < NTREEBINS
  {
    FromBelow(s, s / 256 % 0x1_0000_0000);
  }

  lemma FromBelow(s: nat, x: nat)
    ensures IndexFrom(s, x) < NTREEBINS
  {
    if 0 < x <= 0xFFFF {
      Log2Below(x);
    }
  }

  /** Below 2^40 the index is that of the bin whose range holds the size. */
  lemma IndexInBin(s: nat)
    requires MIN_LARGE_SIZE <= s < 0x100_0000_0000
    ensures InBin(s, ComputeTreeIndex(s))
  {
    var x := s / 256;
    assert x % 0x1_0000_0000 == x;
    LastMinSize();
    if x <= 0xFFFF {
      MiddleIndex(s, x);
    } else {
      assert IndexFrom(s, x) == 31;
    }
  }

  lemma MiddleIndex(s: nat, x: nat)
    requires x == s / 256 && 0 < x <= 0xFFFF
    ensures InBin(s, IndexFrom(s, x))
  {
    var k := Log2(x);
    Log2Below(x);
    BetweenPow2(s, k);
    TopBits(s, k);
  }

  lemma BetweenPow2(s: nat, k: nat)
    requires Pow2(k) <= s / 256 < Pow2(k + 1)
    ensures Pow2(k + 8) <= s < Pow2(k + 9)
  {
    Pow2Values();
    Pow2Add(k, 8);
    Pow2Add(k + 1, 8);
  }

  /** The cut to 32 bits makes the index wrong for some larger sizes; this says exactly which. */
  lemma IndexInBinExactly(s: nat)
    requires MIN_LARGE_SIZE <= s
    ensures InBin(s, ComputeTreeIndex(s)) <==> s < 0x100_0000_0000 || s / 256 % 0x1_0000_0000 >= 0xC000
  {
    if s < 0x100_0000_0000 {
      IndexInBin(s);
    } else {
      var x := s / 256 % 0x1_0000_0000;
      var i := ComputeTreeIndex(s);
      LastMinSize();
      IndexBelow(s);
      if i < 31 {
        MinSizeMono(i + 1, 31);
      }
      if 0 < x <= 0xFFFF {
        Pow2Values();
        CutIndex(s, x);
      }
    }
  }

  lemma CutIndex(s: nat, x: nat)
    requires x == s / 256 % 0x1_0000_0000 && 0 < x <= 0xFFFF
    ensures ComputeTreeIndex(s) == 31 <==> x >= 0xC000
  {
    Log2Below(x);
    var k := Log2(x);
    assert Pow2(15) == 0x8000 && Pow2(22) == 0x40_0000 by { Pow2Values(); Pow2Add(7, 8); }
    if k < 15 {
      Pow2Mono(k + 1, 15);
    } else {
      ShiftIsDiv(s, 22);
      Bit14(s, x);
    }
  }

  lemma Bit14(s: nat, x: nat)
    requires x == s / 256 % 0x1_0000_0000 && 0x8000 <= x <= 0xFFFF
    ensures s / 0x40_0000 % 2 == 1 <==> x >= 0xC000
  {
    var q, b := s / 256 / 0x1_0000_0000, s % 256;
    var u := if x >= 0xC000 then 3 else 2;
    var n := 0x4_0000 * q + u;
    DivUnique(s, 0x40_0000, n, 256 * (x - 0x4000 * u) + b);
    assert n % 2 == u % 2;
  }

  /** Bins are ordered by size. */
  lemma BinsOrdered(s: nat, i: nat, s': nat, j: nat)
    requires InBin(s, i) && InBin(s', j) && i < j
    ensures s < s'
  {
    MinSizeMono(i + 1, j);
  }

  /** The sizes of a bin are those its trie ranges over. */
  lemma BinRange(s: nat, i: nat)
    requires InBin(s, i) && s < TWO64
    ensures BinLo(i) <= s < BinLo(i) + Pow2(BinBits(i))
  {
    MinSizeStep(i);
    Pow2Values();
  }

  // ----- the size bits as they are shifted out -----

  /** `k` holds, left-justified in 64 bits, the `e` size bits of `s` that are still to be consumed. */
  ghost predicate Key(k: nat, s: nat, lo: nat, e: nat) {
    e <= 64 && lo <= s < lo + Pow2(e) && k == (s - lo) * Pow2(64 - e)
  }

  /** The first key of a walk in bin `i`: `s << leftshift_for_tree_index(i)`. */
  lemma FirstKey(s: nat, i: nat)
    requires InBin(s, i) && s < TWO64
    ensures Key(s * Pow2(LeftShift(i)) % TWO64, s, BinLo(i), BinBits(i))
  {
    BinRange(s, i);
    var e := BinBits(i);
    assert LeftShift(i) == 64 - e;
    var q := if i == 31 then 0 else if i % 2 == 0 then 2 else 3;
    LowIsMultiple(i, e);
    LowPartDropped(s, q, e);
  }

  lemma LowIsMultiple(i: nat, e: nat)
    requires i < NTREEBINS && e == BinBits(i)
    ensures BinLo(i) == (if i == 31 then 0 else if i % 2 == 0 then 2 else 3) * Pow2(e)
  {
    assert i < 31 ==> Pow2(e + 1) == 2 * Pow2(e);
  }

  lemma LowPartDropped(s: nat, q: nat, e: nat)
    requires e <= 64 && q * Pow2(e) <= s < q * Pow2(e) + Pow2(e)
    ensures s * Pow2(64 - e) % TWO64 == (s - q * Pow2(e)) * Pow2(64 - e)
  {
    var m, w := Pow2(64 - e), Pow2(e);
    assert m * w == TWO64 by { Pow2Add(64 - e, e); Pow2Values(); }
    var r := s - q * w;
    Distribute(s, q, w, r, m);
    MulLess(r, w, m);
    DivUnique(s * m, TWO64, q, r * m);
  }

  lemma Distribute(s: nat, q: nat, w: nat, r: nat, m: nat)
    requires s == q * w + r && m * w == TWO64
    ensures s * m == q * TWO64 + r * m
  {
    assert (q * w) * m == q * (m * w);
  }

  /** The top bit of the key says which half holds `s`; shifting it out gives that half's key. */
  lemma NextKey(k: nat, s: nat, lo: nat, e: nat)
    requires Key(k, s, lo, e) && e > 0
    ensures k < TWO64
    ensures k / 0x8000_0000_0000_0000 == if s >= lo + Pow2(e - 1) then 1 else 0
    ensures Key(k * 2 % TWO64, s, if s >= lo + Pow2(e - 1) then lo + Pow2(e - 1) else lo, e - 1)
  {
    var m, h := Pow2(64 - e), Pow2(e - 1);
    assert m * h == 0x8000_0000_0000_0000 by { Pow2Add(64 - e, e - 1); Pow2Values(); }
    assert Pow2(64 - (e - 1)) == 2 * m;
    HalfKey(s - lo, h, m);
    ShiftOut(k);
  }

  lemma HalfKey(d: nat, h: nat, m: nat)
    requires m * h == 0x8000_0000_0000_0000 && d < 2 * h
    ensures d < h ==> d * m < 0x8000_0000_0000_0000 && d * (2 * m) == 2 * (d * m)
    ensures d >= h ==> 0x8000_0000_0000_0000 <= d * m < TWO64 && (d - h) * (2 * m) == 2 * (d * m) - TWO64
  {
    if d < h {
      MulLess(d, h, m);
    } else {
      MulMono(h, d, m);
      MulLess(d, 2 * h, m);
      assert (d - h) * m == d * m - h * m;
    }
  }

  lemma ShiftOut(k: nat)
    requires k < TWO64
    ensures k < 0x8000_0000_0000_0000 ==> k / 0x8000_0000_0000_0000 == 0 && k * 2 % TWO64 == 2 * k
    ensures k >= 0x8000_0000_0000_0000 ==> k / 0x8000_0000_0000_0000 == 1 && k * 2 % TWO64 == 2 * k - TWO64
  {}
}
