/** The bytes of memory words, and copying them. */
module Bytes {
  import opened Words

  /** Byte `j` of a number, least significant first. */
  function ByteOf(v: int, j: nat): int
    decreases j
  {
    if j == 0 then v % 256 else ByteOf(v / 256, j - 1)
  }

  /** The address of word `k` of the block at `p`. */
  function WordAt(p: int, k: nat): int { p + 8 * k }

  /** Byte `i` of the block at `p`, which is aligned to words. */
  function ByteAt(m: Mem, p: int, i: nat): int {
    if WordAt(p, i / 8) in m then ByteOf(Bits(m[WordAt(p, i / 8)]), i % 8) else 0
  }

  /** The low `k` bytes of `s` and the others of `d`. */
  function Blend(d: int, s: int, k: nat): int
    decreases k
  {
    if k == 0 then d else s % 256 + 256 * Blend(d / 256, s / 256, k - 1)
  }

  lemma {:induction false} BlendBytes(d: int, s: int, k: nat, j: nat)
    ensures ByteOf(Blend(d, s, k), j) == if j < k then ByteOf(s, j) else ByteOf(d, j)
    decreases k
  {
    if k > 0 {
      PutByte(s % 256, Blend(d / 256, s / 256, k - 1));
      if j > 0 {
        BlendBytes(d / 256, s / 256, k - 1, j - 1);
      }
    }
  }

  lemma PutByte(b: int, r: int)
    requires 0 <= b < 256
    ensures (b + 256 * r) / 256 == r && (b + 256 * r) % 256 == b
  {}

  /** `v` with byte `j` replaced by `b`. */
  function SetByte(v: int, j: nat, b: int): int
    decreases j
  {
    if j == 0 then b + 256 * (v / 256) else v % 256 + 256 * SetByte(v / 256, j - 1, b)
  }

  lemma {:induction false} SetByteBytes(v: int, j: nat, b: int, i: nat)
    requires 0 <= b < 256
    ensures ByteOf(SetByte(v, j, b), i) == if i == j then b else ByteOf(v, i)
    decreases j
  {
    if j == 0 {
      PutByte(b, v / 256);
    } else {
      PutByte(v % 256, SetByte(v / 256, j - 1, b));
      if i > 0 { SetByteBytes(v / 256, j - 1, b, i - 1); }
    }
  }

  /** `n` bytes from `src` have been copied to `dst`. */
  ghost predicate Copied(m: Mem, m': Mem, src: int, dst: int, n: nat) {
    forall i: nat :: i < n ==> ByteAt(m', dst, i) == ByteAt(m, src, i)
  }

  /** Only words that start in the block have changed. */
  ghost predicate ChangedIn(m: Mem, m': Mem, lo: int, hi: int) {
    forall a :: a in m ==> a in m' && (m'[a] != m[a] ==> lo <= a < hi)
  }

  lemma CopiedThen(m0: Mem, m1: Mem, m2: Mem, a: int, b: int, c: int, n: nat)
    requires Copied(m0, m1, a, b, n) && Copied(m1, m2, b, c, n)
    ensures Copied(m0, m2, a, c, n)
  {
    forall i: nat | i < n ensures ByteAt(m2, c, i) == ByteAt(m0, a, i) { assert ByteAt(m1, b, i) == ByteAt(m0, a, i); }
  }

  /** The first `k` words have been copied. */
  ghost predicate WordsCopied(m: Mem, m': Mem, src: int, dst: int, k: nat) {
    forall j: nat :: j < k ==> WordAt(dst, j) in m' && WordAt(src, j) in m && m'[WordAt(dst, j)] == m[WordAt(src, j)]
  }

  /** Whole words, and then the bytes of the last one that is only partly copied. */
  lemma CopiedByWords(m: Mem, m1: Mem, m2: Mem, src: int, dst: int, n: nat)
    requires WordsCopied(m, m2, src, dst, n / 8)
    requires n % 8 != 0 ==> var d, s := WordAt(dst, n / 8), WordAt(src, n / 8);
      d in m1 && s in m && d in m2 && m2[d] == Data(Blend(Bits(m1[d]), Bits(m[s]), n % 8))
    ensures Copied(m, m2, src, dst, n)
  {
    forall i: nat | i < n ensures ByteAt(m2, dst, i) == ByteAt(m, src, i) {
      if i / 8 == n / 8 {
        BlendBytes(Bits(m1[WordAt(dst, n / 8)]), Bits(m[WordAt(src, n / 8)]), n % 8, i % 8);
      } else {
        assert i / 8 < n / 8;
      }
    }
  }

  /** The last, partly copied word leaves the words before it alone. */
  lemma TailApart(m: Mem, m1: Mem, m2: Mem, src: int, dst: int, n: nat)
    requires WordsCopied(m, m1, src, dst, n / 8)
    requires ChangedIn(m1, m2, WordAt(dst, n / 8), WordAt(dst, n / 8) + 1)
    ensures WordsCopied(m, m2, src, dst, n / 8)
  {}
}
