/** `&` on unsigned words, as alignment arithmetic uses it. */
module Bitwise {
  import opened Words
  import opened TreeIndex

  /** Bit by bit, lowest bit first. */
  function And64(a: nat, b: nat): nat {
    if a == 0 || b == 0 then 0 else (if a % 2 == 1 && b % 2 == 1 then 1 else 0) + 2 * And64(a / 2, b / 2)
  }

  ghost predicate PowerOfTwo(a: nat) { exists k: nat :: a == Pow2(k) }

  lemma AndStep(a: nat, b: nat)
    ensures And64(a, b) == (if a % 2 == 1 && b % 2 == 1 then 1 else 0) + 2 * And64(a / 2, b / 2)
  {}

  lemma {:induction false} AndSame(a: nat)
    ensures And64(a, a) == a
  {
    if a > 0 {
      AndStep(a, a);
      AndSame(a / 2);
    }
  }

  /** `a & (a - 1)` is zero exactly for the powers of two. */
  lemma {:induction false} PowerTest(a: nat)
    requires a > 0
    ensures And64(a, a - 1) == 0 <==> PowerOfTwo(a)
  {
    AndStep(a, a - 1);
    if a % 2 == 1 {
      AndSame(a / 2);
      if PowerOfTwo(a) {
        var k: nat :| a == Pow2(k);
      }
      if a == 1 { assert a == Pow2(0); }
    } else {
      PowerTest(a / 2);
      if PowerOfTwo(a) {
        var k: nat :| a == Pow2(k);
        assert a / 2 == Pow2(k - 1);
      }
      if PowerOfTwo(a / 2) {
        var k: nat :| a / 2 == Pow2(k);
        assert a == Pow2(k + 1);
      }
    }
  }

  /** `x & (2^k - 1)` is the remainder of `x` by `2^k`. */
  lemma {:induction false} LowMask(x: nat, k: nat) returns (q: nat)
    ensures x == q * Pow2(k) + And64(x, Pow2(k) - 1) && And64(x, Pow2(k) - 1) < Pow2(k)
    decreases k
  {
    if k == 0 {
      q := x;
    } else {
      AndStep(x, Pow2(k) - 1);
      q := LowMask(x / 2, k - 1);
      assert (Pow2(k) - 1) / 2 == Pow2(k - 1) - 1 && (Pow2(k) - 1) % 2 == 1;
      Doubled(x, q, Pow2(k - 1), And64(x / 2, Pow2(k - 1) - 1));
    }
  }

  lemma Doubled(x: nat, q: nat, w: nat, r: nat)
    requires x / 2 == q * w + r
    ensures x == q * (2 * w) + (2 * r + x % 2)
  {}

  lemma LowMaskIsMod(x: nat, k: nat)
    ensures And64(x, Pow2(k) - 1) == x % Pow2(k)
  {
    var q := LowMask(x, k);
    DivUnique(x, Pow2(k), q, And64(x, Pow2(k) - 1));
  }

  lemma AndZero(x: nat)
    ensures And64(x, 0) == 0
  {}

  lemma Halves(w: nat, v: nat)
    requires 0 < v <= w
    ensures (2 * w - 2 * v) / 2 == w - v && (2 * w - 2 * v) % 2 == 0
    ensures (2 * v - 1) / 2 == v - 1 && (2 * v - 1) % 2 == 1
  {}

  lemma {:induction false} FullMask(x: nat, n: nat)
    requires x < Pow2(n)
    ensures And64(x, Pow2(n) - 1) == x
    decreases n
  {
    if n > 0 {
      Halves(Pow2(n - 1), Pow2(n - 1));
      AndStep(x, Pow2(n) - 1);
      FullMask(x / 2, n - 1);
    }
  }

  /** `x & -2^k`, within `n` bits, clears the low bits. */
  lemma {:induction false} HighMask(x: nat, k: nat, n: nat)
    requires k <= n && x < Pow2(n) && Pow2(k) <= Pow2(n)
    ensures And64(x, Pow2(n) - Pow2(k)) + And64(x, Pow2(k) - 1) == x
    decreases n
  {
    hide And64;
    if k == 0 {
      AndZero(x);
      FullMask(x, n);
    } else {
      Pow2Mono(k - 1, n - 1);
      Halves(Pow2(n - 1), Pow2(k - 1));
      HighMask(x / 2, k - 1, n - 1);
      HighStep(x, Pow2(n - 1), Pow2(k - 1));
    }
  }

  lemma HighStep(x: nat, w: nat, v: nat)
    requires 0 < v <= w && And64(x / 2, w - v) + And64(x / 2, v - 1) == x / 2
    ensures And64(x, 2 * w - 2 * v) + And64(x, 2 * v - 1) == x
  {
    hide And64;
    Halves(w, v);
    AndStep(x, 2 * w - 2 * v);
    AndStep(x, 2 * v - 1);
  }

  lemma Exponent(k: nat)
    requires Pow2(k) <= TWO64
    ensures k <= 64
  {
    Pow2Values();
    if k > 64 { Pow2Mono(65, k); }
  }

  /** Rounding an address up to a multiple of a power of two, as `(x + a - 1) & -a`. */
  lemma AlignUp(x: nat, a: nat, k: nat)
    requires a == Pow2(k) && a <= TWO64 && x + a - 1 < TWO64
    ensures var r := And64(x + a - 1, TWO64 - a);
      x <= r < x + a && r % a == 0 && (a % 16 == 0 ==> r % 16 == 0)
  {
    var y, r := x + a - 1, And64(x + a - 1, TWO64 - a);
    Pow2Values();
    Exponent(k);
    HighMask(y, k, 64);
    var q := LowMask(y, k);
    Multiple(r, q, a);
  }

  lemma Multiple(r: nat, q: nat, a: nat)
    requires a > 0 && r == q * a
    ensures r % a == 0 && (a % 16 == 0 ==> r % 16 == 0)
  {
    DivUnique(r, a, q, 0);
    if a % 16 == 0 { MultipleOf16(q, a / 16); }
  }

  lemma MultipleOf16(q: nat, b: nat)
    ensures q * (16 * b) % 16 == 0
  {
    assert q * (16 * b) == 16 * (q * b);
  }

  /** A power of two that alignments are rounded to: the least one from 32 on that is not below the alignment. */
  ghost predicate RoundsTo(alignment: nat, a: nat) {
    PowerOfTwo(a) && a >= MIN_CHUNK_SIZE && a >= alignment && a % 16 == 0 && (a == MIN_CHUNK_SIZE || a < 2 * alignment)
  }

  /** There is only one. */
  lemma RoundsToOne(alignment: nat, a: nat, b: nat)
    requires RoundsTo(alignment, a) && RoundsTo(alignment, b)
    ensures a == b
  {
    var j: nat, k: nat :| a == Pow2(j) && b == Pow2(k);
    if j < k { Pow2Mono(j + 1, k); } else if k < j { Pow2Mono(k + 1, j); }
  }

  lemma Power16(a: nat)
    requires PowerOfTwo(a) && a >= MIN_CHUNK_SIZE
    ensures a % 16 == 0
  {
    var k: nat :| a == Pow2(k);
    if k < 5 { Pow2Mono(k, 4); }
    Pow2Add(k - 4, 4);
    MultipleOf16(Pow2(k - 4), 1);
  }

  /** Doubling a power of two that is below a number of at most 63 bits stays within them. */
  lemma NotBeyond(a: nat, k: nat, al: nat)
    requires a == Pow2(k) && a < 2 * al && al <= 0x8000_0000_0000_0000
    ensures k <= 63 && a <= 0x8000_0000_0000_0000
  {
    Pow2Values();
    assert Pow2(64) == 2 * Pow2(63);
    if k > 63 { Pow2Mono(64, k); } else { Pow2Mono(k, 63); }
  }

  lemma AlreadyAligned(x: nat, a: nat)
    requires RoundsTo(a, a)
    ensures And64(x, a - 1) == 0 <==> x % a == 0
  {
    var k: nat :| a == Pow2(k);
    LowMaskIsMod(x, k);
  }

  /** The next aligned address above one that is not aligned. */
  lemma AlignedPlace(x: nat, a: nat)
    requires RoundsTo(a, a) && And64(x, a - 1) != 0 && x % 16 == 0 && x + a - 1 < TWO64 && a <= TWO64
    ensures var r := And64(x + a - 1, TWO64 - a); x + 16 <= r && r + 16 <= x + a && r % a == 0 && r % 16 == 0
  {
    hide And64;
    var k: nat :| a == Pow2(k);
    LowMaskIsMod(x, k);
    AlignUp(x, a, k);
    Between(x, And64(x + a - 1, TWO64 - a), a);
  }

  lemma Between(x: nat, r: nat, a: nat)
    requires x < r < x + a && x % 16 == 0 && r % 16 == 0 && a % 16 == 0
    ensures x + 16 <= r && r + 16 <= x + a
  {}

  /** Where `internal_memalign` cuts: with a leader of at least a minimum chunk before an aligned address. */
  function CutPlace(p: int, a: nat): int
    requires p + 16 + a > 0 && a <= TWO64
  {
    var br := And64(p + 16 + a - 1, TWO64 - a) - 16;
    if br - p >= MIN_CHUNK_SIZE then br else br + a
  }

  lemma CutPlaceOk(p: int, a: nat)
    requires p > 0 && p % 16 == 0 && RoundsTo(a, a) && And64(p + 16, a - 1) != 0 && p + 16 + a - 1 < TWO64 && a <= TWO64
    ensures MIN_CHUNK_SIZE <= CutPlace(p, a) - p <= a + 16 && (CutPlace(p, a) - p) % 16 == 0
    ensures (CutPlace(p, a) + 16) % a == 0
  {
    hide And64;
    var r := And64(p + 16 + a - 1, TWO64 - a);
    AlignedPlace(p + 16, a);
    NextMultiple(r, a);
    CutFar(p, r, a);
    assert CutPlace(p, a) + 16 == r || CutPlace(p, a) + 16 == r + a;
  }

  lemma CutFar(p: int, r: nat, a: nat)
    requires p % 16 == 0 && r % 16 == 0 && a % 16 == 0 && a >= MIN_CHUNK_SIZE && p + 32 <= r && r <= p + a
    ensures var pos := if r - 16 - p >= MIN_CHUNK_SIZE then r - 16 else r - 16 + a;
      MIN_CHUNK_SIZE <= pos - p <= a + 16 && (pos - p) % 16 == 0
  {}

  lemma NextMultiple(r: nat, a: nat)
    requires a > 0 && r % a == 0 && a % 16 == 0
    ensures (r + a) % a == 0
  {
    var q := r / a;
    assert r == a * q;
    assert r + a == (q + 1) * a + 0;
    DivUnique(r + a, a, q + 1, 0);
  }

  /** A multiple of a power of two that is not below the alignment. */
  ghost predicate AlignedTo(x: int, alignment: nat) {
    exists a: nat :: a > 0 && PowerOfTwo(a) && a >= alignment && x % a == 0
  }

  lemma SixteenAligned(x: int, alignment: nat)
    requires x % 16 == 0 && alignment <= 16
    ensures AlignedTo(x, alignment)
  {
    assert Pow2(4) == 16;
    assert PowerOfTwo(16);
  }

  lemma IsAligned(x: int, alignment: nat, a: nat)
    requires RoundsTo(alignment, a) && x % a == 0
    ensures AlignedTo(x, alignment)
  {}

  lemma ThirtyTwo()
    ensures PowerOfTwo(32)
  {
    assert Pow2(5) == 32;
  }

  lemma Twice(a: nat, al: nat)
    requires PowerOfTwo(a) && a < al <= 0x8000_0000_0000_0000
    ensures PowerOfTwo(2 * a) && 2 * a <= 0x8000_0000_0000_0000
  {
    var k: nat :| a == Pow2(k);
    assert 2 * a == Pow2(k + 1);
    NotBeyond(2 * a, k + 1, al);
  }
}
