/** The 32-bit bin maps of `malloc_state` and the bit tricks that search them.

    A `binmap_t` is modelled as its 32 bits, least significant first, so every C operator on it
    is written out on bits: `&`, `|`, `~` bit by bit, shifts by moving bits, and unary minus as
    the complement plus one with the carry rippling upwards. */
module BinMap {

  const NBITS: nat := 32

  function Zeros(n: nat): (r: seq<bool>)
    ensures |r| == n && forall k :: 0 <= k < n ==> !r[k]
  {
    if n == 0 then [] else [false] + Zeros(n - 1)
  }

  type Word32 = w: seq<bool> | |w| == NBITS witness Zeros(NBITS)

  const ZERO: Word32 := Zeros(NBITS)

  /** `idx2bit(i)`, that is `1 << i`. */
  function Idx2Bit(i: nat): Word32
    requires i < NBITS
  {
    seq(NBITS, k => k == i)
  }

  function And(x: Word32, y: Word32): Word32 { seq(NBITS, k requires 0 <= k < NBITS => x[k] && y[k]) }

  function Or(x: Word32, y: Word32): Word32 { seq(NBITS, k requires 0 <= k < NBITS => x[k] || y[k]) }

  function Not(x: Word32): Word32 { seq(NBITS, k requires 0 <= k < NBITS => !x[k]) }

  function Shl(x: Word32, n: nat): Word32 {
    seq(NBITS, k requires 0 <= k < NBITS => k >= n && x[k - n])
  }

  function Shr(x: Word32, n: nat): Word32 {
    seq(NBITS, k requires 0 <= k < NBITS => k + n < NBITS && x[k + n])
  }

  /** `b + 1` on any number of bits; the carry out of the last one is lost. */
  function Increment(b: seq<bool>): (r: seq<bool>)
    ensures |r| == |b|
  {
    if b == [] then [] else if b[0] then [false] + Increment(b[1..]) else [true] + b[1..]
  }

  /** Unary minus in two's complement. */
  function Neg(x: Word32): Word32 { Increment(Not(x)) }

  /** `least_bit`, `left_bits` of the source. */
  function LeastBit(x: Word32): Word32 { And(x, Neg(x)) }

  function LeftBits(x: Word32): Word32 { Or(Shl(x, 1), Neg(Shl(x, 1))) }

  predicate IsZero(x: Word32) { x == ZERO }

  /** Bit `k` is the lowest one set. */
  predicate Lowest(x: Word32, k: nat) { k < NBITS && x[k] && forall j :: 0 <= j < k ==> !x[j] }

  /** A word other than zero has a lowest set bit. */
  lemma {:induction false} LowestExists(x: Word32, from: nat) returns (k: nat)
    requires from <= NBITS
    requires forall j :: 0 <= j < from ==> !x[j]
    ensures IsZero(x) || Lowest(x, k)
    decreases NBITS - from
  {
    if from == NBITS {
      assert x == ZERO;
      k := 0;
    } else if x[from] {
      k := from;
    } else {
      k := LowestExists(x, from + 1);
    }
  }

  /** Adding one clears the run of low ones, sets the zero above it, and leaves the rest. */
  lemma {:induction false} IncrementBits(b: seq<bool>, n: nat, j: nat)
    requires j < |b|
    requires n <= |b| && (forall i :: 0 <= i < n ==> b[i]) && (n < |b| ==> !b[n])
    ensures Increment(b)[j] == (if j < n then false else if j == n then true else b[j])
  {
    if n > 0 && j > 0 {
      IncrementBits(b[1..], n - 1, j - 1);
    }
  }

  /** Two's complement negation keeps the lowest set bit, clears what is below, flips what is above. */
  lemma NegBits(x: Word32, k: nat, j: nat)
    requires j < NBITS && Lowest(x, k)
    ensures Neg(x)[j] == (if j < k then false else if j == k then true else !x[j])
  {
    IncrementBits(Not(x), k, j);
  }

  lemma NegZero(j: nat)
    requires j < NBITS
    ensures !Neg(ZERO)[j]
  {
    IncrementBits(Not(ZERO), NBITS, j);
  }

  /** `least_bit(x)` isolates the lowest set bit of `x`. */
  lemma LeastBitIsLowest(x: Word32, k: nat)
    requires Lowest(x, k)
    ensures LeastBit(x) == Idx2Bit(k)
  {
    forall j | 0 <= j < NBITS ensures LeastBit(x)[j] == Idx2Bit(k)[j] {
      NegBits(x, k, j);
    }
  }

  /** So the bit that `compute_bit2idx` finds in `least_bit(x)` is the lowest of `x`. */
  lemma LeastBitFinds(x: Word32)
    requires !IsZero(x)
    ensures !IsZero(LeastBit(x))
    ensures forall j: nat :: Lowest(LeastBit(x), j) ==> Lowest(x, j)
  {
    var k := LowestExists(x, 0);
    LeastBitIsLowest(x, k);
    assert Idx2Bit(k)[k] && !ZERO[k];
    forall j: nat | Lowest(Idx2Bit(k), j) ensures j == k {}
  }

  /** `left_bits(x)` has exactly the bits above the lowest set bit of `x`. */
  lemma LeftBitsAbove(x: Word32, k: nat, j: nat)
    requires Lowest(x, k) && j < NBITS
    ensures LeftBits(x)[j] <==> j > k
  {
    var y := Shl(x, 1);
    if k + 1 < NBITS {
      assert Lowest(y, k + 1) by { assert forall i :: 0 <= i < k + 1 ==> !y[i]; }
      NegBits(y, k + 1, j);
    } else {
      assert y == ZERO;
      NegZero(j);
    }
  }

  /** `compute_bit2idx` (count of trailing zeros): walks up to the lowest set bit. */
  method ComputeBit2Idx(x: Word32) returns (i: nat)
    requires !IsZero(x)
    ensures Lowest(x, i)
  {
    ghost var k := LowestExists(x, 0);
    i := 0;
    while !x[i]
      invariant i <= k
      invariant forall j :: 0 <= j < i ==> !x[j]
      decreases k - i
    {
      i := i + 1;
    }
  }

  /** `smallbits & 3` asks for the two lowest bits. */
  const LOW_TWO: Word32 := Or(Idx2Bit(0), Idx2Bit(1))

  lemma LowTwo(x: Word32)
    ensures IsZero(And(x, LOW_TWO)) <==> !x[0] && !x[1]
  {
    assert forall k :: 0 <= k < NBITS ==> LOW_TWO[k] == (k == 0 || k == 1);
    if !x[0] && !x[1] {
      assert forall k :: 0 <= k < NBITS ==> And(x, LOW_TWO)[k] == ZERO[k];
    } else {
      assert And(x, LOW_TWO)[if x[0] then 0 else 1] && !ZERO[if x[0] then 0 else 1];
    }
  }

  /** With both low bits clear, shifting back and masking finds the next bin in use. */
  lemma NextSmall(x: Word32, idx: nat, left: Word32)
    requires idx < NBITS && !IsZero(Shr(x, idx)) && !Shr(x, idx)[0]
    requires left == And(Shl(Shr(x, idx), idx), LeftBits(Idx2Bit(idx)))
    ensures !IsZero(left)
    ensures forall i: nat :: Lowest(left, i) ==> idx < i && x[i] && forall j :: idx <= j < i ==> !x[j]
  {
    forall j | 0 <= j < NBITS ensures left[j] <==> j > idx && x[j] { LeftBitsAbove(Idx2Bit(idx), idx, j); }
    var k := LowestExists(Shr(x, idx), 0);
    assert left[k + idx] && !ZERO[k + idx];
    assert Shr(x, idx)[0] == x[idx];
  }

  lemma LowBits(x: Word32, idx: nat)
    requires idx + 1 < NBITS
    ensures Shr(x, idx)[0] == x[idx] && Shr(x, idx)[1] == x[idx + 1] && Not(Shr(x, idx))[0] == !x[idx]
  {}

  lemma ShiftedOut(x: Word32, idx: nat)
    requires idx < NBITS && IsZero(Shr(x, idx))
    ensures forall j :: idx <= j < NBITS ==> !x[j]
  {
    forall j | idx <= j < NBITS ensures !x[j] { assert Shr(x, idx)[j - idx] == ZERO[j - idx]; }
  }
}
