/** Datatypes for more elements than an `int` can count: whole chunks of `INT_MAX` elements, and a remainder. */
module BigCount {

  const INT_MAX: nat := 0x7FFF_FFFF

  /** A type map: basic types (by number) at displacements, as section 4.1.1 of MPI 3.0 defines it, and the extent. */
  datatype Type = Type(entries: seq<(int, int)>, extent: int)

  function Shift(m: seq<(int, int)>, d: int): (r: seq<(int, int)>)
    ensures |r| == |m| && forall i :: 0 <= i < |m| ==> r[i] == (m[i].0, m[i].1 + d)
  {
    if m == [] then [] else [(m[0].0, m[0].1 + d)] + Shift(m[1..], d)
  }

  /** `n` copies, the first one at `at`, each `step` behind the one before. */
  function Copies(m: seq<(int, int)>, n: nat, step: int, at: int): seq<(int, int)> {
    if n == 0 then [] else Shift(m, at) + Copies(m, n - 1, step, at + step)
  }

  /** `c` blocks of `b` copies each, blocks `stride` bytes apart. */
  function Blocks(m: seq<(int, int)>, c: nat, b: nat, step: int, stride: int, at: int): seq<(int, int)> {
    if c == 0 then [] else Copies(m, b, step, at) + Blocks(m, c - 1, b, step, stride, at + stride)
  }

  /** The constructors of section 4.1.2 of MPI 3.0. */
  function Contiguous(n: nat, t: Type): Type { Type(Copies(t.entries, n, t.extent, 0), n * t.extent) }

  function Vector(c: nat, b: nat, stride: nat, t: Type): Type {
    Type(Blocks(t.entries, c, b, t.extent, stride * t.extent, 0),
        if c == 0 then 0 else ((c - 1) * stride + b) * t.extent)
  }

  function Struct2(d0: int, t0: Type, d1: int, t1: Type): seq<(int, int)> {
    Shift(t0.entries, d0) + Shift(t1.entries, d1)
  }

  datatype Built = Built(entries: seq<(int, int)>) | Refused

  /** Conversion to a 32-bit `int`. */
  function AsInt(n: int): int {
    if n % 0x1_0000_0000 <= INT_MAX then n % 0x1_0000_0000 else n % 0x1_0000_0000 - 0x1_0000_0000
  }

  /** The type map that `MPIX_Type_contiguous_x` builds; MPI refuses a negative number of chunks. */
  function ContiguousX(count: nat, t: Type): Built {
    var c, r := AsInt(count / INT_MAX), AsInt(count % INT_MAX);
    if c < 0 || r < 0 then Refused else
    var remdisp := c * INT_MAX * t.extent;
    Built(Struct2(0, Vector(c, INT_MAX, INT_MAX, t), remdisp, Contiguous(r, t)))
  }

  lemma {:induction false} ShiftParts(a: seq<(int, int)>, b: seq<(int, int)>, d: int)
    ensures Shift(a + b, d) == Shift(a, d) + Shift(b, d)
  {
    hide Shift;
    var x, y := Shift(a + b, d), Shift(a, d) + Shift(b, d);
    assert forall i :: 0 <= i < |a + b| ==> x[i] == y[i];
  }

  lemma {:induction false} ShiftTwice(a: seq<(int, int)>, d: int, e: int)
    ensures Shift(Shift(a, d), e) == Shift(a, d + e)
  {
    hide Shift;
    var x, y := Shift(Shift(a, d), e), Shift(a, d + e);
    assert forall i :: 0 <= i < |a| ==> x[i] == y[i];
  }

  lemma {:induction false} ShiftCopies(m: seq<(int, int)>, n: nat, step: int, at: int, d: int)
    ensures Shift(Copies(m, n, step, at), d) == Copies(m, n, step, at + d)
  {
    hide Shift;
    if n == 0 {
      ShiftNothing(d);
    } else {
      ShiftCopies(m, n - 1, step, at + step, d);
      assert at + step + d == at + d + step;
      ShiftTwice(m, at, d);
      ShiftParts(Shift(m, at), Copies(m, n - 1, step, at + step), d);
    }
  }

  lemma ShiftNothing(d: int)
    ensures Shift([], d) == []
  {}

  lemma OneStepMore(a: int, step: int, at: int)
    ensures at + step + (a - 1) * step == at + a * step
  {}

  lemma {:induction false} CopiesSplit(m: seq<(int, int)>, a: nat, b: nat, step: int, at: int)
    ensures Copies(m, a + b, step, at) == Copies(m, a, step, at) + Copies(m, b, step, at + a * step)
  {
    CopiesSplitAt(m, a, b, step, at, at + a * step);
  }

  lemma {:induction false} CopiesSplitAt(m: seq<(int, int)>, a: nat, b: nat, step: int, at: int, end: int)
    requires end == at + a * step
    ensures Copies(m, a + b, step, at) == Copies(m, a, step, at) + Copies(m, b, step, end)
  {
    hide Shift;
    if a == 0 {
      assert end == at;
    } else {
      OneStepMore(a, step, at);
      CopiesSplitAt(m, a - 1, b, step, at + step, end);
      Regroup(Shift(m, at), Copies(m, a - 1, step, at + step), Copies(m, b, step, end));
    }
  }

  lemma Regroup(a: seq<(int, int)>, b: seq<(int, int)>, c: seq<(int, int)>)
    ensures a + (b + c) == (a + b) + c
  {}

  /** Blocks that leave no gap are copies. */
  lemma {:induction false} BlocksAreCopies(m: seq<(int, int)>, c: nat, b: nat, step: int, at: int)
    ensures Blocks(m, c, b, step, b * step, at) == Copies(m, c * b, step, at)
  {
    if c > 0 {
      BlocksAreCopies(m, c - 1, b, step, at + b * step);
      CopiesSplit(m, b, (c - 1) * b, step, at);
      assert b + (c - 1) * b == c * b;
    }
  }

  /** Chunks and remainder together are contiguous elements. */
  lemma ChunksAndRest(c: nat, r: nat, t: Type)
    ensures Struct2(0, Vector(c, INT_MAX, INT_MAX, t), c * INT_MAX * t.extent, Contiguous(r, t)) ==
      Copies(t.entries, c * INT_MAX + r, t.extent, 0)
  {
    hide Shift;
    var m := t.entries;
    BlocksAreCopies(m, c, INT_MAX, t.extent, 0);
    ShiftCopies(m, c * INT_MAX, t.extent, 0, 0);
    ShiftCopies(m, r, t.extent, 0, c * INT_MAX * t.extent);
    CopiesSplit(m, c * INT_MAX, r, t.extent, 0);
  }

  lemma {:induction false} CopiesLength(m: seq<(int, int)>, n: nat, step: int, at: int)
    ensures |Copies(m, n, step, at)| == n * |m|
  {
    if n > 0 {
      CopiesLength(m, n - 1, step, at + step);
      OneStepMore(n, |m|, 0);
    }
  }

  lemma MoreIsLonger(a: nat, b: nat, w: nat)
    requires a < b && w > 0
    ensures a * w < b * w
  {}

  lemma QuotientAndRest(count: nat)
    ensures count == count / INT_MAX * INT_MAX + count % INT_MAX && count % INT_MAX < INT_MAX
  {}

  /** The result is the type map of `count` contiguous elements exactly when the number of whole chunks is an `int`. */
  lemma ContiguousXIsContiguous(count: nat, t: Type)
    ensures count / INT_MAX <= INT_MAX ==> ContiguousX(count, t) == Built(Contiguous(count, t).entries)
    ensures ContiguousX(count, t) == Built(Contiguous(count, t).entries) && t.entries != [] ==>
      count / INT_MAX <= INT_MAX
  {
    hide Struct2, Vector, Blocks, Shift, Copies;
    var q, c, r := count / INT_MAX, AsInt(count / INT_MAX), count % INT_MAX;
    QuotientAndRest(count);
    assert AsInt(r) == r;
    if c >= 0 {
      ChunksAndRest(c, r, t);
      if q > INT_MAX && t.entries != [] {
        CopiesLength(t.entries, c * INT_MAX + r, t.extent, 0);
        CopiesLength(t.entries, count, t.extent, 0);
        MoreIsLonger(c * INT_MAX + r, count, |t.entries|);
      }
    }
  }

  /** The extent of the result, by the rule for structs of section 4.1.6 of MPI 3.0: from 0 to the highest end of a
      part, for types without gaps below and above. */
  function ExtentX(count: nat, t: Type): int {
    var c, r := AsInt(count / INT_MAX), AsInt(count % INT_MAX);
    if c < 0 || r < 0 then 0 else
    var chunks, rest := Vector(c, INT_MAX, INT_MAX, t).extent, c * INT_MAX * t.extent + Contiguous(r, t).extent;
    if chunks < rest then rest else chunks
  }

  /** It is that of `count` contiguous elements, for a type that extends upwards or not at all. */
  lemma ExtentIsContiguous(count: nat, t: Type)
    requires count / INT_MAX <= INT_MAX && t.extent >= 0
    ensures ExtentX(count, t) == Contiguous(count, t).extent
  {
    var c, r := count / INT_MAX, count % INT_MAX;
    QuotientAndRest(count);
    assert AsInt(c) == c && AsInt(r) == r;
    LastChunk(c, t.extent);
    ExtentSum(c * INT_MAX, r, t.extent);
  }

  lemma LastChunk(c: nat, e: int)
    ensures c > 0 ==> ((c - 1) * INT_MAX + INT_MAX) * e == c * INT_MAX * e
  {}

  lemma ExtentSum(a: nat, r: nat, e: int)
    requires e >= 0
    ensures a * e + r * e == (a + r) * e && r * e >= 0 && a * e >= 0
  {}

  /** Element `k` comes after the `k` elements before it, at `k` extents. */
  lemma ElementAt(count: nat, t: Type, k: nat)
    requires k < count && count / INT_MAX <= INT_MAX
    ensures ContiguousX(count, t) == Built(
      Copies(t.entries, k, t.extent,
          0) + Shift(t.entries, k * t.extent) + Copies(t.entries, count - k - 1, t.extent, (k + 1) * t.extent))
  {
    hide ContiguousX, Shift;
    var m, step := t.entries, t.extent;
    ContiguousXIsContiguous(count, t);
    CopiesSplit(m, k, count - k, step, 0);
    assert count == k + (count - k);
    OneStepMore(k + 1, step, 0);
    FirstCopy(m, count - k, step, k * step);
    Regroup(Copies(m, k, step, 0), Shift(m, k * step), Copies(m, count - k - 1, step, k * step + step));
  }

  lemma FirstCopy(m: seq<(int, int)>, n: nat, step: int, at: int)
    requires n > 0
    ensures Copies(m, n, step, at) == Shift(m, at) + Copies(m, n - 1, step, at + step)
  {}
}
