/** Circular doubly linked rings of chunks, threaded through their `fd` and `bk` words. */
module Rings {
  import opened Words

  /** `b` follows `a`: `a->fd == b` and `b->bk == a`. */
  ghost predicate Link(m: Mem, a: int, b: int) { NumAt(m, a + FD, b) && NumAt(m, b + BK, a) }

  /** The position after `i`, going round. */
  function After(c: seq<int>, i: nat): (k: nat)
    requires i < |c|
    ensures k < |c|
  {
    if i + 1 < |c| then i + 1 else 0
  }

  /** Following `fd` runs through `c` and back to its start, and `bk` undoes every `fd`. */
  ghost predicate Ring(m: Mem, c: seq<int>) {
    forall i :: 0 <= i < |c| ==> Link(m, c[i], c[After(c, i)])
  }

  /** The link words of different elements do not overlap. */
  ghost predicate Apart(c: seq<int>) {
    forall i, j :: 0 <= i < |c| && 0 <= j < |c| && i != j ==> c[i] + 16 <= c[j] || c[j] + 16 <= c[i]
  }

  /** An element that is not the first, and its two neighbours. */
  lemma RingNeighbours(m: Mem, c: seq<int>, j: nat)
    requires Ring(m, c) && Apart(c) && 0 < j < |c|
    ensures var b, a := c[j - 1], c[After(c, j)];
      && NumAt(m, c[j] + FD, a) && NumAt(m, c[j] + BK, b) && NumAt(m, a + BK, c[j]) && NumAt(m, b + FD, c[j])
      && c[j] != b && c[j] != a && (a == b <==> |c| == 2)
  {
    assert Link(m, c[j - 1], c[After(c, j - 1)]) && Link(m, c[j], c[After(c, j)]);
  }

  lemma ApartSwap(x: int, y: int, l: seq<int>)
    requires Apart([x] + ([y] + l))
    ensures Apart([y] + ([x] + l))
  {
    var c, d := [x] + ([y] + l), [y] + ([x] + l);
    assert forall k :: 0 <= k < |c| ==> d[k] == c[if k == 0 then 1 else if k == 1 then 0 else k];
  }

  ghost predicate SameWord(m: Mem, m': Mem, a: int) { a in m ==> a in m' && m'[a] == m[a] }

  ghost predicate SameLinks(m: Mem, m': Mem, p: int) { SameWord(m, m', p + FD) && SameWord(m, m', p + BK) }

  /** Words outside the ring do not matter. */
  lemma RingKept(m: Mem, m': Mem, c: seq<int>)
    requires Ring(m, c)
    requires forall i :: 0 <= i < |c| ==> SameLinks(m, m', c[i])
    ensures Ring(m', c)
  {
    forall i | 0 <= i < |c| ensures Link(m', c[i], c[After(c, i)]) {
      assert Link(m, c[i], c[After(c, i)]);
      assert SameLinks(m, m', c[i]) && SameLinks(m, m', c[After(c, i)]);
    }
  }

  function Rotated(c: seq<int>): seq<int>
    requires c != []
  {
    [c[|c| - 1]] + c[..|c| - 1]
  }

  /** A ring may start at its last element. */
  lemma Rotate(m: Mem, c: seq<int>)
    requires Ring(m, c) && c != [] && Apart(c)
    ensures Ring(m, Rotated(c)) && Apart(Rotated(c))
  {
    var d := Rotated(c);
    assert forall i :: 0 <= i < |c| ==> d[i] == if i == 0 then c[|c| - 1] else c[i - 1];
    forall i | 0 <= i < |d| ensures Link(m, d[i], d[After(d, i)]) {
      var k := if i == 0 then |c| - 1 else i - 1;
      assert Link(m, c[k], c[After(c, k)]);
    }
  }

  /** What linking `x` in between `t` and `f` does to memory. */
  function LinkBetween(m: Mem, t: int, x: int, f: int): Mem
    requires t + FD in m && f + BK in m && x + FD in m && x + BK in m
  {
    Store(Store(Store(Store(m, t + FD, Data(x)), f + BK, Data(x)), x + FD, Data(f)), x + BK, Data(t))
  }

  function InsertedSecond(c: seq<int>, x: int): seq<int>
    requires c != []
  {
    [c[0], x] + c[1..]
  }

  /** Linking `x` in behind the first element; a ring of one need not have been linked before. */
  lemma InsertSecond(m: Mem, c: seq<int>, x: int)
    requires c != [] && (Ring(m, c) || |c| == 1) && Apart([x] + c)
    requires c[0] + FD in m && c[After(c, 0)] + BK in m && x + FD in m && x + BK in m
    ensures Ring(LinkBetween(m, c[0], x, c[After(c, 0)]), InsertedSecond(c, x))
    ensures Apart(InsertedSecond(c, x))
  {
    var d, e := [x] + c, InsertedSecond(c, x);
    var m' := LinkBetween(m, c[0], x, c[After(c, 0)]);
    assert forall i :: 0 <= i < |e| ==> e[i] == if i == 0 then d[1] else if i == 1 then d[0] else d[i];
    forall i | 0 <= i < |e| ensures Link(m', e[i], e[After(e, i)]) {
      if i >= 2 {
        assert Link(m, c[i - 1], c[After(c, i - 1)]);
        KeptLink(m, c, x, i - 1);
      }
    }
  }

  lemma KeptLink(m: Mem, c: seq<int>, x: int, j: nat)
    requires 0 < j < |c| && Link(m, c[j], c[After(c, j)]) && Apart([x] + c)
    requires c[0] + FD in m && c[After(c, 0)] + BK in m && x + FD in m && x + BK in m
    ensures Link(LinkBetween(m, c[0], x, c[After(c, 0)]), c[j], c[After(c, j)])
  {
    var d := [x] + c;
    assert d[0] == x && d[1] == c[0] && d[2] == c[1] && d[j + 1] == c[j] && d[After(c, j) + 1] == c[After(c, j)];
  }

  /** What unlinking whatever lies between `b` and `f` does to memory. */
  function LinkPast(m: Mem, b: int, f: int): Mem
    requires b + FD in m && f + BK in m
  {
    Store(Store(m, f + BK, Data(b)), b + FD, Data(f))
  }

  function Without(c: seq<int>, k: nat): seq<int>
    requires k < |c|
  {
    c[..k] + c[k + 1..]
  }

  /** Unlinking the element at `k > 0`. */
  lemma Delete(m: Mem, c: seq<int>, k: nat)
    requires 0 < k < |c| && Ring(m, c) && Apart(c)
    requires c[k - 1] + FD in m && c[After(c, k)] + BK in m
    ensures Ring(LinkPast(m, c[k - 1], c[After(c, k)]), Without(c, k))
    ensures Apart(Without(c, k))
  {
    var d := Without(c, k);
    var m' := LinkPast(m, c[k - 1], c[After(c, k)]);
    forall i | 0 <= i < |d| ensures Link(m', d[i], d[After(d, i)]) {
      WithoutAt(c, k, i);
      if i != k - 1 {
        PastKept(m, c, k, if i < k then i else i + 1);
      }
    }
    WithoutApart(c, k);
  }

  lemma WithoutApart(c: seq<int>, k: nat)
    requires 0 < k < |c| && Apart(c)
    ensures Apart(Without(c, k))
  {
    var d := Without(c, k);
    forall i, j | 0 <= i < |d| && 0 <= j < |d| && i != j ensures d[i] + 16 <= d[j] || d[j] + 16 <= d[i] {
      WithoutAt(c, k, i);
      WithoutAt(c, k, j);
    }
  }

  lemma WithoutAt(c: seq<int>, k: nat, i: nat)
    requires 0 < k < |c| && i < |c| - 1
    ensures var d, j := Without(c, k), if i < k then i else i + 1;
      && d[i] == c[j] && (i != k - 1 ==> d[After(d, i)] == c[After(c, j)])
      && (i == k - 1 ==> d[After(d, i)] == c[After(c, k)])
  {}

  lemma PastKept(m: Mem, c: seq<int>, k: nat, j: nat)
    requires 0 < k < |c| && Ring(m, c) && Apart(c)
    requires c[k - 1] + FD in m && c[After(c, k)] + BK in m
    requires j < |c| && j != k && j != k - 1
    ensures Link(LinkPast(m, c[k - 1], c[After(c, k)]), c[j], c[After(c, j)])
  {
    assert Link(m, c[j], c[After(c, j)]);
    assert After(c, j) != k && After(c, j) != After(c, k);
    var x, y := c[After(c, j)], c[After(c, k)];
    assert x + 16 <= y || y + 16 <= x;
  }
}
