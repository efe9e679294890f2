/** Unlinking a chunk from a tree bin: the replacement that takes its place in the tree. */
module TreeUnlink {
  import opened Words
  import opened BinMap
  import opened TreeIndex
  import opened Rings
  import opened Tries
  import opened TrieMemory
  import opened Bins
  import opened TreeBins

  // ----- the second half: `r` takes the place of `x` in the tree -----

  /** What the last step of `unlink_large_chunk` writes: `r` becomes a child of `par`, pointed to by `slot`, and
      the parent of the children `c0` and `c1` that there are. */
  function Adopted(m: Mem, slot: int, r: int, par: int, c0: int, c1: int): Mem
    requires slot in m && r + PARENT in m && r + CHILD0 in m && r + CHILD1 in m
    requires (c0 != 0 ==> c0 + PARENT in m) && (c1 != 0 ==> c1 + PARENT in m)
  {
    var m1 := Store(Store(m, slot, Data(r)), r + PARENT, Data(par));
    var m2 := if c0 != 0 then Store(Store(m1, r + CHILD0, Data(c0)), c0 + PARENT, Data(r)) else m1;
    if c1 != 0 then Store(Store(m2, r + CHILD1, Data(c1)), c1 + PARENT, Data(r)) else m2
  }

  predicate Outside(slot: int, q: int) { slot < q + FD || q + 64 <= slot }

  /** A chunk that is none of those involved keeps its link words. */
  lemma AdoptedSame(m: Mem, slot: int, r: int, par: int, c0: int, c1: int, q: int)
    requires slot in m && r + PARENT in m && r + CHILD0 in m && r + CHILD1 in m
    requires (c0 != 0 ==> c0 + PARENT in m) && (c1 != 0 ==> c1 + PARENT in m)
    requires FarApart(q, r) && (c0 != 0 ==> FarApart(q, c0)) && (c1 != 0 ==> FarApart(q, c1)) && Outside(slot, q)
    ensures SameNode(m, Adopted(m, slot, r, par, c0, c1), q)
  {}

  lemma AdoptedTop(m: Mem, slot: int, r: int, par: int, c0: int, c1: int)
    requires slot in m && r + PARENT in m && NumAt(m, r + CHILD0, 0) && NumAt(m, r + CHILD1, 0)
    requires (c0 != 0 ==> c0 + PARENT in m && FarApart(r, c0)) && (c1 != 0 ==> c1 + PARENT in m && FarApart(r, c1))
    requires Outside(slot, r)
    requires c0 != 0 ==> Outside(slot, c0)
    requires c1 != 0 ==> Outside(slot, c1)
    ensures var m' := Adopted(m, slot, r, par, c0, c1);
      && SameLinks(m, m', r) && SameWord(m, m', r + INDEX) && NumAt(m', slot, r)
      && NumAt(m', r + PARENT, par) && NumAt(m', r + CHILD0, c0) && NumAt(m', r + CHILD1, c1)
  {}

  /** The words of a node whose parent alone may change. */
  ghost predicate SameButParent(m: Mem, m': Mem, q: int) {
    SameLinks(m, m', q) && SameWord(m, m', q + CHILD0) && SameWord(m, m', q + CHILD1) && SameWord(m, m', q + INDEX)
  }

  lemma AdoptedChildren(m: Mem, slot: int, r: int, par: int, c0: int, c1: int)
    requires slot in m && r + PARENT in m && r + CHILD0 in m && r + CHILD1 in m
    requires (c0 != 0 ==> c0 + PARENT in m && FarApart(r, c0)) && (c1 != 0 ==> c1 + PARENT in m && FarApart(r, c1))
    requires c0 != 0 && c1 != 0 ==> FarApart(c0, c1)
    requires (c0 != 0 ==> Outside(slot, c0)) && (c1 != 0 ==> Outside(slot, c1))
    ensures var m' := Adopted(m, slot, r, par, c0, c1);
      && (c0 != 0 ==> NumAt(m', c0 + PARENT, r) && SameButParent(m, m', c0))
      && (c1 != 0 ==> NumAt(m', c1 + PARENT, r) && SameButParent(m, m', c1))
  {
    if c0 != 0 { AdoptedLeft(m, slot, r, par, c0, c1); }
    if c1 != 0 { AdoptedRight(m, slot, r, par, c0, c1); }
  }

  lemma AdoptedLeft(m: Mem, slot: int, r: int, par: int, c0: int, c1: int)
    requires slot in m && r + PARENT in m && r + CHILD0 in m && r + CHILD1 in m && c0 != 0
    requires c0 + PARENT in m && FarApart(r, c0)
    requires (c1 != 0 ==> c1 + PARENT in m && FarApart(r, c1) && FarApart(c0, c1))
    requires Outside(slot, c0)
    ensures var m' := Adopted(m, slot, r, par, c0, c1); NumAt(m', c0 + PARENT, r) && SameButParent(m, m', c0)
  {}

  lemma AdoptedRight(m: Mem, slot: int, r: int, par: int, c0: int, c1: int)
    requires slot in m && r + PARENT in m && r + CHILD0 in m && r + CHILD1 in m && c1 != 0
    requires c1 + PARENT in m && FarApart(r, c1)
    requires (c0 != 0 ==> c0 + PARENT in m && FarApart(r, c0) && FarApart(c0, c1))
    requires Outside(slot, c1)
    ensures var m' := Adopted(m, slot, r, par, c0, c1); NumAt(m', c1 + PARENT, r) && SameButParent(m, m', c1)
  {}

  /** The ring that is about to move up: linked up as a ring, but with no children yet. */
  ghost predicate Loose(m: Mem, ring: seq<int>, i: nat) {
    && ring != [] && ring[0] > 0 && Ring(m, ring)
    && ring[0] + PARENT in m && NumAt(m, ring[0] + CHILD0, 0) && NumAt(m, ring[0] + CHILD1, 0)
    && (forall k :: 0 < k < |ring| ==> Chained(m, ring[k]))
    && (forall k :: 0 <= k < |ring| ==> NumAt(m, ring[k] + INDEX, i))
  }

  /** A set of large chunks. */
  ghost predicate AllLarge(f: Sizing, s: set<int>) {
    NoOverlap(f) && (forall q :: q in s ==> q in f && q > 0 && !IsSmall(f[q]))
  }

  /** The slot is no link word of any of them. */
  ghost predicate Clear(f: Sizing, s: set<int>, slot: int) {
    AllLarge(f, s) && (forall q :: q in s ==> Outside(slot, q))
  }

  lemma FarIn(f: Sizing, s: set<int>, slot: int, p: int, q: int)
    requires Clear(f, s, slot) && p in s && q in s && p != q
    ensures FarApart(p, q) && Outside(slot, p) && Outside(slot, q) && p > 0 && q > 0
  {
    Far(f, p, q);
  }

  /** The ring `n.ring`, whose chunks were in the tree elsewhere or behind `x`, takes over the subtrees of `x`. */
  lemma Adopt(m: Mem, n: Trie, lo: nat, e: nat, f: Sizing, x: int, slot: int, par: int, i: nat)
    requires n.Node? && n.ring != [] && Ok(n, lo, e) && Holds(n, f) && Loose(m, n.ring, i)
    requires At(m, n.left, x, i) && At(m, n.right, x, i) && slot in m && Clear(f, Addrs(n), slot)
    ensures AddrOf(n.left) != 0 ==> AddrOf(n.left) + PARENT in m
    ensures AddrOf(n.right) != 0 ==> AddrOf(n.right) + PARENT in m
    ensures var m' := Adopted(m, slot, n.ring[0], par, AddrOf(n.left), AddrOf(n.right));
      At(m', n, par, i) && NumAt(m', slot, AddrOf(n))
  {
    hide Ok, Holds, Loose, Clear, RingAt, At, Adopted;
    AdoptReady(m, n, lo, e, f, x, slot, i);
    var c0, c1, r := AddrOf(n.left), AddrOf(n.right), n.ring[0];
    var m' := Adopted(m, slot, r, par, c0, c1);
    AdoptedTop(m, slot, r, par, c0, c1);
    AdoptedChildren(m, slot, r, par, c0, c1);
    AdoptRing(m, n, lo, e, f, x, slot, par, i);
    AdoptSide(m, m', n, lo, e, f, x, slot, par, i, false);
    AdoptSide(m, m', n, lo, e, f, x, slot, par, i, true);
    FromParts(m', n, par, i);
  }

  lemma FromParts(m: Mem, n: Trie, par: int, i: nat)
    requires n.Node? && RingAt(m, n.ring, par, i) && At(m, n.left, n.ring[0], i) && At(m, n.right, n.ring[0], i)
    requires NumAt(m, n.ring[0] + CHILD0, AddrOf(n.left)) && NumAt(m, n.ring[0] + CHILD1, AddrOf(n.right))
    ensures At(m, n, par, i)
  {}

  lemma AdoptReady(m: Mem, n: Trie, lo: nat, e: nat, f: Sizing, x: int, slot: int, i: nat)
    requires n.Node? && Ok(n, lo, e) && Holds(n, f) && Loose(m, n.ring, i)
    requires At(m, n.left, x, i) && At(m, n.right, x, i) && Clear(f, Addrs(n), slot)
    ensures var c0, c1, r := AddrOf(n.left), AddrOf(n.right), n.ring[0];
      && r in Addrs(n) && Outside(slot, r) && NumAt(m, r + CHILD0, 0) && NumAt(m, r + CHILD1, 0) && r + PARENT in m
      && (c0 != 0 ==> c0 + PARENT in m && c0 in Addrs(n) && FarApart(r, c0) && Outside(slot, c0))
      && (c1 != 0 ==> c1 + PARENT in m && c1 in Addrs(n) && FarApart(r, c1) && Outside(slot, c1))
      && (c0 != 0 && c1 != 0 ==> FarApart(c0, c1))
  {
    var c0, c1, r := AddrOf(n.left), AddrOf(n.right), n.ring[0];
    assert r in n.ring;
    PartsDisjoint(n, lo, e, f, r);
    if c0 != 0 {
      assert c0 in n.left.ring;
      PartsDisjoint(n, lo, e, f, c0);
      FarIn(f, Addrs(n), slot, r, c0);
    }
    if c1 != 0 {
      assert c1 in n.right.ring;
      FarIn(f, Addrs(n), slot, r, c1);
      if c0 != 0 { FarIn(f, Addrs(n), slot, c0, c1); }
    }
  }

  /** Chunks of the new subtree other than the three that are written to keep their words. */
  lemma AdoptOther(m: Mem, n: Trie, lo: nat, e: nat, f: Sizing, x: int, slot: int, par: int, i: nat, q: int)
    requires n.Node? && Ok(n, lo, e) && Holds(n, f) && Loose(m, n.ring, i)
    requires At(m, n.left, x, i) && At(m, n.right, x, i) && slot in m && Clear(f, Addrs(n), slot)
    requires q in Addrs(n) && q != n.ring[0] && q != AddrOf(n.left) && q != AddrOf(n.right)
    requires (AddrOf(n.left) != 0 ==> AddrOf(n.left) + PARENT in m)
    requires (AddrOf(n.right) != 0 ==> AddrOf(n.right) + PARENT in m)
    ensures SameNode(m, Adopted(m, slot, n.ring[0], par, AddrOf(n.left), AddrOf(n.right)), q)
  {
    AdoptReady(m, n, lo, e, f, x, slot, i);
    var c0, c1, r := AddrOf(n.left), AddrOf(n.right), n.ring[0];
    FarIn(f, Addrs(n), slot, q, r);
    if c0 != 0 { FarIn(f, Addrs(n), slot, q, c0); }
    if c1 != 0 { FarIn(f, Addrs(n), slot, q, c1); }
    AdoptedSame(m, slot, r, par, c0, c1, q);
  }

  lemma AdoptRing(m: Mem, n: Trie, lo: nat, e: nat, f: Sizing, x: int, slot: int, par: int, i: nat)
    requires n.Node? && Ok(n, lo, e) && Holds(n, f) && Loose(m, n.ring, i)
    requires At(m, n.left, x, i) && At(m, n.right, x, i) && slot in m && Clear(f, Addrs(n), slot)
    requires (AddrOf(n.left) != 0 ==> AddrOf(n.left) + PARENT in m)
    requires (AddrOf(n.right) != 0 ==> AddrOf(n.right) + PARENT in m)
    ensures RingAt(Adopted(m, slot, n.ring[0], par, AddrOf(n.left), AddrOf(n.right)), n.ring, par, i)
  {
    AdoptReady(m, n, lo, e, f, x, slot, i);
    var c0, c1, r := AddrOf(n.left), AddrOf(n.right), n.ring[0];
    var m' := Adopted(m, slot, r, par, c0, c1);
    AdoptedTop(m, slot, r, par, c0, c1);
    forall k | 0 < k < |n.ring| ensures SameNode(m, m', n.ring[k]) {
      assert n.ring[k] in n.ring && n.ring[k] != r;
      NotATop(n, lo, e, f, slot, n.ring[k]);
      AdoptOther(m, n, lo, e, f, x, slot, par, i, n.ring[k]);
    }
    LooseToRingAt(m, m', n.ring, par, i);
  }

  lemma LooseToRingAt(m: Mem, m': Mem, ring: seq<int>, par: int, i: nat)
    requires Loose(m, ring, i) && NumAt(m', ring[0] + PARENT, par) && SameLinks(m, m', ring[0])
    requires SameWord(m, m', ring[0] + INDEX)
    requires forall k :: 0 < k < |ring| ==> SameNode(m, m', ring[k])
    ensures RingAt(m', ring, par, i)
  {
    RingKept(m, m', ring);
    forall k | 0 < k < |ring| ensures Chained(m', ring[k]) {
      assert Chained(m, ring[k]) && SameNode(m, m', ring[k]);
    }
    forall k | 0 <= k < |ring| ensures NumAt(m', ring[k] + INDEX, i) {
      assert NumAt(m, ring[k] + INDEX, i);
      assert k > 0 ==> SameNode(m, m', ring[k]);
    }
  }

  lemma AdoptSide(m: Mem, m': Mem, n: Trie, lo: nat, e: nat, f: Sizing, x: int, slot: int, par: int, i: nat,
      right: bool)
    requires n.Node? && Ok(n, lo, e) && Holds(n, f) && Loose(m, n.ring, i)
    requires At(m, n.left, x, i) && At(m, n.right, x, i) && slot in m && Clear(f, Addrs(n), slot)
    requires (AddrOf(n.left) != 0 ==> AddrOf(n.left) + PARENT in m)
    requires (AddrOf(n.right) != 0 ==> AddrOf(n.right) + PARENT in m)
    requires m' == Adopted(m, slot, n.ring[0], par, AddrOf(n.left), AddrOf(n.right))
    requires var c := AddrOf(Child(n, right)); c != 0 ==> NumAt(m', c + PARENT, n.ring[0]) && SameButParent(m, m', c)
    ensures At(m', Child(n, right), n.ring[0], i)
  {
    hide Loose, Clear, Adopted;
    var s := Child(n, right);
    if s.Node? {
      forall p | p in Addrs(s) && p != s.ring[0] ensures SameNode(m, m', p) {
        NotATop(n, lo, e, f, slot, p);
        AdoptOther(m, n, lo, e, f, x, slot, par, i, p);
      }
      Reparent(m, m', s, Half(lo, e, right), e - 1, f, x, n.ring[0], i);
    }
  }

  /** A chunk of the ring is the top of neither subtree; a chunk below is the top of the ring only if it is not. */
  lemma NotATop(n: Trie, lo: nat, e: nat, f: Sizing, slot: int, p: int)
    requires n.Node? && Ok(n, lo, e) && Holds(n, f) && Clear(f, Addrs(n), slot) && p in Addrs(n)
    ensures p in n.ring ==> p != AddrOf(n.left) && p != AddrOf(n.right)
    ensures p in Addrs(n.left) ==> p != n.ring[0] && p != AddrOf(n.right)
    ensures p in Addrs(n.right) ==> p != n.ring[0] && p != AddrOf(n.left)
  {
    PartsDisjoint(n, lo, e, f, p);
    assert n.left.Node? ==> AddrOf(n.left) in n.left.ring;
    assert n.right.Node? ==> AddrOf(n.right) in n.right.ring;
    assert n.ring[0] in n.ring;
  }

  // ----- the first half: which ring takes the place of `x` -----

  /** A ring of several chunks: the last one of the ring takes over from the first. */
  lemma HeadLeaves(m: Mem, n: Trie, lo: nat, e: nat, f: Sizing, par: int, i: nat)
    requires n.Node? && |n.ring| > 1 && Ok(n, lo, e) && Holds(n, f) && At(m, n, par, i) && AllLarge(f, Addrs(n))
    ensures var c := n.ring; var l := c[|c| - 1];
      && NumAt(m, c[0] + BK, l) && NumAt(m, c[0] + FD, c[1]) && l + FD in m && c[1] + BK in m
      && NumAt(m, c[1] + BK, c[0]) && NumAt(m, l + FD, c[0])
      && Loose(LinkPast(m, l, c[1]), UnlinkedFrom(c, 0), i)
      && At(LinkPast(m, l, c[1]), n.left, c[0], i) && At(LinkPast(m, l, c[1]), n.right, c[0], i)
  {
    hide Ok, Holds, AllLarge, Loose, At;
    HeadWords(m, n, par, i);
    HeadLeavesRing(m, n, f, par, i);
    SubtreesStay(m, n, lo, e, f, par, i, |n.ring| - 1, 1);
  }

  lemma HeadWords(m: Mem, n: Trie, par: int, i: nat)
    requires n.Node? && |n.ring| > 1 && At(m, n, par, i)
    ensures var c := n.ring; var l := c[|c| - 1];
      && NumAt(m, c[0] + BK, l) && NumAt(m, c[0] + FD, c[1]) && l + FD in m && c[1] + BK in m
      && NumAt(m, c[1] + BK, c[0]) && NumAt(m, l + FD, c[0]) && RingAt(m, c, par, i)
  {
    var c := n.ring;
    assert Link(m, c[0], c[After(c, 0)]) && Link(m, c[|c| - 1], c[After(c, |c| - 1)]);
  }

  /** Relinking within the ring of a node leaves its subtrees alone. */
  lemma SubtreesStay(m: Mem, n: Trie, lo: nat, e: nat, f: Sizing, par: int, i: nat, b: nat, a: nat)
    requires n.Node? && Ok(n, lo, e) && Holds(n, f) && At(m, n, par, i) && AllLarge(f, Addrs(n)) && b < |n.ring|
    requires a < |n.ring|
    requires n.ring[b] + FD in m && n.ring[a] + BK in m
    ensures var m' := LinkPast(m, n.ring[b], n.ring[a]);
      At(m', n.left, n.ring[0], i) && At(m', n.right, n.ring[0], i)
  {
    hide Ok, Holds, AllLarge, LinkPast;
    var m' := LinkPast(m, n.ring[b], n.ring[a]);
    forall p | p in Addrs(n.left) || p in Addrs(n.right) ensures SameNode(m, m', p) {
      OffRingFar(n, lo, e, f, p, b);
      OffRingFar(n, lo, e, f, p, a);
      PastFar(m, n.ring[b], n.ring[a], p);
    }
    AtKept(m, m', n.left, n.ring[0], i);
    AtKept(m, m', n.right, n.ring[0], i);
  }

  lemma PastFar(m: Mem, b: int, a: int, p: int)
    requires b + FD in m && a + BK in m && FarApart(p, b) && FarApart(p, a)
    ensures SameNode(m, LinkPast(m, b, a), p)
  {}

  lemma OffRingFar(n: Trie, lo: nat, e: nat, f: Sizing, p: int, k: nat)
    requires n.Node? && Ok(n, lo, e) && Holds(n, f) && AllLarge(f, Addrs(n)) && k < |n.ring|
    requires (p in Addrs(n.left) || p in Addrs(n.right))
    ensures FarApart(p, n.ring[k])
  {
    PartsDisjoint(n, lo, e, f, p);
    assert n.ring[k] in n.ring;
    Far(f, p, n.ring[k]);
  }

  lemma RingFar(n: Trie, f: Sizing, j: nat, k: nat)
    requires n.Node? && Holds(n, f) && AllLarge(f, Addrs(n)) && j < |n.ring| && k < |n.ring| && j != k
    ensures FarApart(n.ring[j], n.ring[k]) && n.ring[j] > 0
  {
    assert n.ring[j] in n.ring && n.ring[k] in n.ring;
    Far(f, n.ring[j], n.ring[k]);
  }

  lemma HeadLeavesRing(m: Mem, n: Trie, f: Sizing, par: int, i: nat)
    requires n.Node? && |n.ring| > 1 && Holds(n, f) && AllLarge(f, Addrs(n)) && RingAt(m, n.ring, par, i)
    requires n.ring[|n.ring| - 1] + FD in m && n.ring[1] + BK in m
    ensures Loose(LinkPast(m, n.ring[|n.ring| - 1], n.ring[1]), UnlinkedFrom(n.ring, 0), i)
  {
    var c, d := n.ring, Rotated(n.ring);
    Rotate(m, c);
    assert d[0] == c[|c| - 1] && d[1] == c[0] && d[After(d, 1)] == c[1];
    Delete(m, d, 1);
    var m', r := LinkPast(m, c[|c| - 1], c[1]), UnlinkedFrom(c, 0);
    forall k | 0 <= k < |r| ensures r[k] > 0 && Chained(m', r[k]) && NumAt(m', r[k] + INDEX, i) {
      HeadLeavesElement(m, n, f, par, i, WasAt(c, 0, k));
    }
  }

  lemma HeadLeavesElement(m: Mem, n: Trie, f: Sizing, par: int, i: nat, j: nat)
    requires n.Node? && |n.ring| > 1 && Holds(n, f) && AllLarge(f, Addrs(n)) && RingAt(m, n.ring, par, i)
    requires 0 < j < |n.ring|
    requires n.ring[|n.ring| - 1] + FD in m && n.ring[1] + BK in m
    ensures var m' := LinkPast(m, n.ring[|n.ring| - 1], n.ring[1]);
      n.ring[j] > 0 && Chained(m', n.ring[j]) && NumAt(m', n.ring[j] + INDEX, i)
  {
    assert Chained(m, n.ring[j]) && NumAt(m, n.ring[j] + INDEX, i);
    RingFar(n, f, j, if j == 1 then 0 else 1);
    if j != 1 { RingFar(n, f, j, 1); }
    if j != |n.ring| - 1 { RingFar(n, f, j, |n.ring| - 1); }
  }

  /** A chunk behind the first one of its size only leaves its ring. */
  lemma ChainedLeaves(m: Mem, n: Trie, lo: nat, e: nat, f: Sizing, par: int, i: nat, k: nat)
    requires n.Node? && 0 < k < |n.ring| && Ok(n, lo, e) && Holds(n, f) && At(m, n, par, i) && AllLarge(f, Addrs(n))
    ensures var c := n.ring; var b, a := c[k - 1], c[After(c, k)];
      && NumAt(m, c[k] + BK, b) && NumAt(m, c[k] + FD, a) && b + FD in m && a + BK in m
      && NumAt(m, a + BK, c[k]) && NumAt(m, b + FD, c[k]) && NumAt(m, c[k] + PARENT, 0)
      && At(LinkPast(m, b, a), n.(ring := UnlinkedFrom(c, k)), par, i)
  {
    hide Ok, AllLarge;
    var c := n.ring;
    ChainedWords(m, n, par, i, k);
    var m' := LinkPast(m, c[k - 1], c[After(c, k)]);
    Delete(m, c, k);
    forall j | 0 <= j < |c| && j != k
      ensures NumAt(m', c[j] + INDEX, i) && (j > 0 ==> Chained(m', c[j]))
      ensures j == 0 ==>
        NumAt(m', c[0] + PARENT, par) && SameWord(m, m', c[0] + CHILD0) && SameWord(m, m', c[0] + CHILD1)
    {
      ChainedLeavesElement(m, n, f, par, i, k, j);
    }
    SubtreesStay(m, n, lo, e, f, par, i, k - 1, After(c, k));
    ChainedLeavesRing(m', c, par, i, k);
  }

  lemma ChainedWords(m: Mem, n: Trie, par: int, i: nat, k: nat)
    requires n.Node? && 0 < k < |n.ring| && At(m, n, par, i)
    ensures var c := n.ring; var b, a := c[k - 1], c[After(c, k)];
      && NumAt(m, c[k] + BK, b) && NumAt(m, c[k] + FD, a) && b + FD in m && a + BK in m
      && NumAt(m, a + BK, c[k]) && NumAt(m, b + FD, c[k]) && NumAt(m, c[k] + PARENT, 0)
  {
    var c := n.ring;
    assert Link(m, c[k - 1], c[After(c, k - 1)]) && Link(m, c[k], c[After(c, k)]) && Chained(m, c[k]);
  }

  lemma ChainedLeavesRing(m: Mem, c: seq<int>, par: int, i: nat, k: nat)
    requires 0 < k < |c| && Ring(m, Without(c, k)) && c[0] > 0 && NumAt(m, c[0] + PARENT, par)
    requires forall j :: 0 <= j < |c| && j != k ==> NumAt(m, c[j] + INDEX, i) && (j > 0 ==> Chained(m, c[j]))
    ensures RingAt(m, UnlinkedFrom(c, k), par, i) && UnlinkedFrom(c, k)[0] == c[0]
  {
    var r := UnlinkedFrom(c, k);
    forall j | 0 <= j < |r| ensures NumAt(m, r[j] + INDEX, i) && (j > 0 ==> Chained(m, r[j])) {
      assert r[j] == c[WasAt(c, k, j)];
    }
  }

  lemma ChainedLeavesElement(m: Mem, n: Trie, f: Sizing, par: int, i: nat, k: nat, j: nat)
    requires n.Node? && 0 < k < |n.ring| && Holds(n, f) && AllLarge(f, Addrs(n)) && RingAt(m, n.ring, par, i)
    requires j < |n.ring| && j != k
    requires n.ring[k - 1] + FD in m && n.ring[After(n.ring, k)] + BK in m
    ensures var m' := LinkPast(m, n.ring[k - 1], n.ring[After(n.ring, k)]);
      && NumAt(m', n.ring[j] + INDEX, i) && (j > 0 ==> Chained(m', n.ring[j]))
      && (j == 0 ==>
            && NumAt(m', n.ring[0] + PARENT, par) && SameWord(m, m', n.ring[0] + CHILD0)
            && SameWord(m, m', n.ring[0] + CHILD1))
  {
    assert NumAt(m, n.ring[j] + INDEX, i);
    assert j > 0 ==> Chained(m, n.ring[j]);
    var b, a := k - 1, After(n.ring, k);
    if j != b { RingFar(n, f, j, b); }
    if j != a { RingFar(n, f, j, a); }
  }

  // ----- the search for the leaf that replaces a node -----

  /** The search has come to the node at the end of `q`, which is on the way to the leaf that will be taken. */
  ghost predicate Seeking(n: Trie, q: seq<bool>) {
    && q != [] && OnTrie(n, q) && Sub(n, q).Node?
    && Leaf(n) == Leaf(Sub(n, q)) && DropLeaf(n) == Put(n, q, DropLeaf(Sub(n, q)))
  }

  /** The word that points to the node at the end of the path `q` below `n`. */
  function SlotOf(n: Trie, q: seq<bool>): int
    requires q != [] && OnTrie(n, q[..|q| - 1])
  {
    ChildWord(AddrOf(Sub(n, q[..|q| - 1])), q[|q| - 1])
  }

  lemma {:induction false} PrefixOnTrie(n: Trie, q: seq<bool>)
    requires q != [] && OnTrie(n, q)
    ensures OnTrie(n, q[..|q| - 1]) && Sub(n, q[..|q| - 1]).Node?
    ensures Sub(n, q) == Child(Sub(n, q[..|q| - 1]), q[|q| - 1])
  {
    if |q| > 1 {
      PrefixOnTrie(Child(n, q[0]), q[1..]);
      assert q[1..][..|q| - 2] == q[..|q| - 1][1..];
    }
  }

  lemma SeekStart(n: Trie)
    requires n.Node? && !IsLeaf(n)
    ensures var b := n.right.Node?; var q := [b];
      && Seeking(n, q) && OnTrie(n, q) && OnTrie(n, q[..|q| - 1])
      && Sub(n, q) == Child(n, b) && SlotOf(n, q) == ChildWord(AddrOf(n), b)
  {
    var q := [n.right.Node?];
    assert q[1..] == [];
  }

  lemma NothingTouched(m: Mem, f: Sizing, ms: int, s: set<int>, i: nat)
    requires AllLarge(f, s) && i < NTREEBINS
    ensures Touches(m, m, f, ms, s, TreeBinAt(ms, i), TreeBinAt(ms, i))
  {}

  lemma SeekOn(n: Trie, q: seq<bool>)
    requires Seeking(n, q) && !IsLeaf(Sub(n, q))
    ensures var b := Sub(n, q).right.Node?;
      && Seeking(n, q + [b]) && OnTrie(n, q + [b]) && Sub(n, q + [b]) == Child(Sub(n, q), b)
      && (q + [b])[..|q + [b]| - 1] == q && SlotOf(n, q + [b]) == ChildWord(AddrOf(Sub(n, q)), b)
  {
    var c := Sub(n, q);
    var b := c.right.Node?;
    ExtendPath(n, q, b);
    assert (q + [b])[..|q|] == q;
    PutAtEnd(n, q, b, DropLeaf(Child(c, b)));
  }

  lemma SeekEnd(n: Trie, q: seq<bool>)
    requires Seeking(n, q) && IsLeaf(Sub(n, q))
    ensures Leaf(n) == Sub(n, q) && DropLeaf(n) == Put(n, q, Empty)
  {}

  /** Cutting the leaf off leaves the tree below `n` without it, and the leaf's ring loose. */
  lemma LeafTaken(m: Mem, n: Trie, lo: nat, e: nat, f: Sizing, par: int, i: nat, q: seq<bool>)
    requires n.Node? && Ok(n, lo, e) && Holds(n, f) && At(m, n, par, i) && AllLarge(f, Addrs(n))
    requires Seeking(n, q) && IsLeaf(Sub(n, q)) && OnTrie(n, q[..|q| - 1]) && SlotOf(n, q) in m
    ensures var m1 := Store(m, SlotOf(n, q), Data(0));
      && At(m1, DropLeaf(n), par, i) && Loose(m1, Leaf(n).ring, i)
  {
    hide AllLarge, Seeking, Ok, Holds, At, Loose, OnTrie, Sub, Leaf, DropLeaf;
    SeekPath(n, q);
    var p, b := q[..|q| - 1], q[|q| - 1];
    PrefixOnTrie(n, q);
    SeekEnd(n, q);
    assert q == p + [b];
    PutAtEnd(n, p, b, Empty);
    LeafCut(m, n, lo, e, f, par, i, p, b);
    LeafLoose(m, n, lo, e, f, par, i, p, b);
  }

  lemma SeekPath(n: Trie, q: seq<bool>)
    requires Seeking(n, q)
    ensures q != [] && OnTrie(n, q) && Sub(n, q).Node?
  {}

  /** One child word of the node at the end of the path is set to null. */
  lemma LeafCut(m: Mem, n: Trie, lo: nat, e: nat, f: Sizing, par: int, i: nat, p: seq<bool>, b: bool)
    requires n.Node? && Ok(n, lo, e) && Holds(n, f) && At(m, n, par, i) && AllLarge(f, Addrs(n))
    requires OnTrie(n, p) && Sub(n, p).Node? && ChildWord(AddrOf(Sub(n, p)), b) in m
    ensures At(Store(m, ChildWord(AddrOf(Sub(n, p)), b), Data(0)), Put(n, p, WithChild(Sub(n, p), b, Empty)), par, i)
  {
    hide AllLarge, Ok, Holds, OnTrie, Sub, At, Put;
    var c := Sub(n, p);
    var m1 := Store(m, ChildWord(AddrOf(c), b), Data(0));
    PathBounded(n, lo, e, p);
    SubHolds(n, f, p);
    SubOk(n, lo, e, p);
    AtSub(m, n, par, i, p);
    TopOfSub(n, f, p);
    forall z | z in Addrs(n) && z != AddrOf(c) ensures SameNode(m, m1, z) {
      ChildWordElsewhere(m, n, f, AddrOf(c), b, z);
    }
    AtWithChild(m, m1, c, LoAt(lo, e, p), e - |p|, f, ParentAt(n, p, par), i, b, Empty);
    AtPut(m, m1, n, lo, e, f, par, i, p, WithChild(c, b, Empty));
  }

  lemma ChildWordElsewhere(m: Mem, n: Trie, f: Sizing, y: int, b: bool, z: int)
    requires AllLarge(f, Addrs(n)) && y in Addrs(n) && z in Addrs(n) && y != z && ChildWord(y, b) in m
    ensures SameNode(m, Store(m, ChildWord(y, b), Data(0)), z)
  {
    Far(f, y, z);
  }

  lemma LeafLoose(m: Mem, n: Trie, lo: nat, e: nat, f: Sizing, par: int, i: nat, p: seq<bool>, b: bool)
    requires n.Node? && Ok(n, lo, e) && Holds(n, f) && At(m, n, par, i) && AllLarge(f, Addrs(n))
    requires OnTrie(n, p) && Sub(n, p).Node? && IsLeaf(Child(Sub(n, p), b)) && ChildWord(AddrOf(Sub(n, p)), b) in m
    ensures Loose(Store(m, ChildWord(AddrOf(Sub(n, p)), b), Data(0)), Child(Sub(n, p), b).ring, i)
  {
    hide AllLarge;
    var c := Sub(n, p);
    var l := Child(c, b);
    var m1 := Store(m, ChildWord(AddrOf(c), b), Data(0));
    PathBounded(n, lo, e, p);
    SubHolds(n, f, p);
    SubOk(n, lo, e, p);
    AtSub(m, n, par, i, p);
    TopOfSub(n, f, p);
    forall k | 0 <= k < |l.ring| ensures SameNode(m, m1, l.ring[k]) {
      assert l.ring[k] in l.ring;
      PartsDisjoint(c, LoAt(lo, e, p), e - |p|, f, l.ring[k]);
      ChildWordElsewhere(m, n, f, AddrOf(c), b, l.ring[k]);
    }
    LeafIsLoose(m, m1, l, AddrOf(c), i);
  }

  lemma LeafIsLoose(m: Mem, m1: Mem, l: Trie, par: int, i: nat)
    requires IsLeaf(l) && At(m, l, par, i) && forall k :: 0 <= k < |l.ring| ==> SameNode(m, m1, l.ring[k])
    ensures Loose(m1, l.ring, i)
  {
    RingAtKept(m, m1, l.ring, par, i);
    assert SameNode(m, m1, l.ring[0]);
  }

  // ----- the tree around the replaced node -----

  /** The word that points to the node at the end of the path: the bin header, or a child word. */
  function TreeSlot(t: Trie, path: seq<bool>, h: int): int
    requires OnTrie(t, path)
  {
    if path == [] then h else ChildWord(ParentAt(t, path, 0), path[|path| - 1])
  }

  lemma {:induction false} ParentIsPrefix(t: Trie, path: seq<bool>, par: int)
    requires path != [] && OnTrie(t, path)
    ensures OnTrie(t, path[..|path| - 1]) && Sub(t, path[..|path| - 1]).Node?
    ensures ParentAt(t, path, par) == AddrOf(Sub(t, path[..|path| - 1]))
    ensures Sub(t, path) == Child(Sub(t, path[..|path| - 1]), path[|path| - 1])
  {
    PrefixOnTrie(t, path);
    if |path| > 1 {
      ParentIsPrefix(Child(t, path[0]), path[1..], AddrOf(t));
      assert path[1..][..|path| - 2] == path[..|path| - 1][1..];
    }
  }

  /** Once the new subtree is in place, the whole tree is. */
  lemma ReplacedTree(m: Mem, m': Mem, f: Sizing, ms: int, i: nat, t: Trie, path: seq<bool>, s: Trie)
    requires i < NTREEBINS && TreeOk(m, f, ms, i, t, true) && OnTrie(t, path) && Sub(t, path).Node?
    requires At(m', s, ParentAt(t, path, TreeBinAt(ms, i)), i)
    requires NumAt(m', TreeSlot(t, path, TreeBinAt(ms, i)), AddrOf(s))
    requires forall q :: q in Addrs(t) && q !in Addrs(Sub(t, path)) && (path == [] || q != ParentAt(t, path, 0)) ==>
      SameNode(m, m', q)
    requires path != [] ==>
      SameWord(m, m', TreeBinAt(ms, i)) && SameButChild(m, m', ParentAt(t, path, 0), path[|path| - 1])
    ensures At(m', Put(t, path, s), TreeBinAt(ms, i), i) && NumAt(m', TreeBinAt(ms, i), AddrOf(Put(t, path, s)))
  {
    if path != [] {
      var lo, e, h, p, b := BinLo(i), BinBits(i), TreeBinAt(ms, i), path[..|path| - 1], path[|path| - 1];
      ParentIsPrefix(t, path, 0);
      ParentIsPrefix(t, path, h);
      assert path == p + [b];
      PutAtEnd(t, p, b, s);
      ReplacedBelow(m, m', f, lo, e, h, i, t, p, b, s);
    }
  }

  lemma ReplacedBelow(m: Mem, m': Mem, f: Sizing, lo: nat, e: nat, h: int, i: nat, t: Trie, p: seq<bool>, b: bool,
      s: Trie)
    requires t.Node? && Ok(t, lo, e) && Holds(t, f) && At(m, t, h, i) && OnTrie(t, p) && Sub(t, p).Node?
    requires At(m', s, AddrOf(Sub(t, p)), i) && NumAt(m', ChildWord(AddrOf(Sub(t, p)), b), AddrOf(s))
    requires SameButChild(m, m', AddrOf(Sub(t, p)), b)
    requires forall q :: q in Addrs(t) && q !in Addrs(Child(Sub(t, p), b)) && q != AddrOf(Sub(t, p)) ==>
      SameNode(m, m', q)
    ensures At(m', Put(t, p, WithChild(Sub(t, p), b, s)), h, i)
    ensures AddrOf(Put(t, p, WithChild(Sub(t, p), b, s))) == AddrOf(t)
  {
    var c := Sub(t, p);
    PathBounded(t, lo, e, p);
    SubHolds(t, f, p);
    SubOk(t, lo, e, p);
    AtSub(m, t, h, i, p);
    TopOfSub(t, f, p);
    AtWithChild(m, m', c, LoAt(lo, e, p), e - |p|, f, ParentAt(t, p, h), i, b, s);
    ChildIn(c, b);
    AtPut(m, m', t, lo, e, f, h, i, p, WithChild(c, b, s));
  }

  lemma ChildIn(c: Trie, b: bool)
    requires c.Node?
    ensures forall q :: q in Addrs(Child(c, b)) ==> q in Addrs(c)
  {}

  // ----- the two halves together -----

  /** Between the two halves: the ring of `s` is loose, the subtrees of `s` still hang below `x`, and `x` still
      has the words that the second half reads. */
  ghost predicate Halfway(m: Mem, s: Trie, x: int, par: int, i: nat) {
    && s.Node? && s.ring != []
    && NumAt(m, x + PARENT, par) && NumAt(m, x + INDEX, i)
    && NumAt(m, x + CHILD0, AddrOf(s.left)) && NumAt(m, x + CHILD1, AddrOf(s.right))
    && Loose(m, s.ring, i) && At(m, s.left, x, i) && At(m, s.right, x, i)
  }

  lemma HalfwayByRing(m: Mem, n: Trie, lo: nat, e: nat, f: Sizing, par: int, i: nat)
    requires n.Node? && |n.ring| > 1 && Ok(n, lo, e) && Holds(n, f) && At(m, n, par, i) && AllLarge(f, Addrs(n))
    requires n.ring[|n.ring| - 1] + FD in m && n.ring[1] + BK in m
    ensures Halfway(LinkPast(m, n.ring[|n.ring| - 1], n.ring[1]), Unlinked(n, 0), n.ring[0], par, i)
  {
    hide Ok, Holds, Loose;
    HeadLeaves(m, n, lo, e, f, par, i);
    HeadKeeps(m, n, f, par, i);
  }

  lemma HeadKeeps(m: Mem, n: Trie, f: Sizing, par: int, i: nat)
    requires n.Node? && |n.ring| > 1 && Holds(n, f) && At(m, n, par, i) && AllLarge(f, Addrs(n))
    requires n.ring[|n.ring| - 1] + FD in m && n.ring[1] + BK in m
    ensures var m', x := LinkPast(m, n.ring[|n.ring| - 1], n.ring[1]), n.ring[0];
      && NumAt(m', x + PARENT, par) && NumAt(m', x + INDEX, i)
      && NumAt(m', x + CHILD0, AddrOf(n.left)) && NumAt(m', x + CHILD1, AddrOf(n.right))
  {
    RingFar(n, f, 0, 1);
    RingFar(n, f, 0, |n.ring| - 1);
    assert NumAt(m, n.ring[0] + INDEX, i);
  }

  lemma HalfwayByLeaf(m: Mem, n: Trie, lo: nat, e: nat, f: Sizing, par: int, i: nat, q: seq<bool>)
    requires n.Node? && |n.ring| == 1 && Ok(n, lo, e) && Holds(n, f) && At(m, n, par, i) && AllLarge(f, Addrs(n))
    requires Seeking(n, q) && IsLeaf(Sub(n, q)) && OnTrie(n, q[..|q| - 1]) && SlotOf(n, q) in m
    ensures Halfway(Store(m, SlotOf(n, q), Data(0)), Unlinked(n, 0), n.ring[0], par, i)
    ensures Unlinked(n, 0).Node? && AddrOf(Unlinked(n, 0)) == AddrOf(Sub(n, q))
  {
    hide Ok, Holds, Loose, SlotOf, Seeking, Addrs, Sub, AllLarge, DropLeaf;
    LeafTaken(m, n, lo, e, f, par, i, q);
    SeekEnd(n, q);
    SeekNotLeaf(n, q);
    var m1, d := Store(m, SlotOf(n, q), Data(0)), DropLeaf(n);
    LooseNotEmpty(m1, Leaf(n).ring, i);
    assert RingAt(m1, d.ring, par, i) && NumAt(m1, d.ring[0] + INDEX, i);
  }

  lemma LooseNotEmpty(m: Mem, c: seq<int>, i: nat)
    requires Loose(m, c, i)
    ensures c != []
  {}

  lemma SeekNotLeaf(n: Trie, q: seq<bool>)
    requires Seeking(n, q)
    ensures n.Node? && !IsLeaf(n)
    ensures DropLeaf(n).Node? && DropLeaf(n).ring == n.ring && Leaf(n).Node?
  {
    assert n.Node?;
    assert Child(n, q[0]).Node? by { SeekChild(n, q); }
  }

  lemma {:induction false} SeekChild(n: Trie, q: seq<bool>)
    requires q != [] && OnTrie(n, q) && Sub(n, q).Node?
    ensures Child(n, q[0]).Node?
  {
    if |q| > 1 {
      SeekChild(Child(n, q[0]), q[1..]);
    }
  }

  /** Where the chunks of a subtree are, relative to the slot that points to it. */
  lemma SlotIsClear(f: Sizing, ms: int, m: Mem, i: nat, t: Trie, lo: nat, e: nat, path: seq<bool>)
    requires Chunks(m, f, ms) && i < NTREEBINS && Ok(t, lo, e) && Holds(t, f) && OnTrie(t, path) && Sub(t, path).Node?
    ensures Clear(f, Addrs(Sub(t, path)), TreeSlot(t, path, TreeBinAt(ms, i)))
    ensures path != [] ==> ParentAt(t, path, 0) in Addrs(t) && ParentAt(t, path, 0) !in Addrs(Sub(t, path))
  {
    var n, slot := Sub(t, path), TreeSlot(t, path, TreeBinAt(ms, i));
    SubHolds(t, f, path);
    if path != [] {
      ParentApart(t, lo, e, f, path);
    }
    forall q | q in Addrs(n) ensures q in f && q > 0 && !IsSmall(f[q]) && Outside(slot, q) {
      AddrHasSize(n, f, q);
      ChunkFacts(m, f, ms, q);
      if path != [] { Far(f, q, ParentAt(t, path, 0)); }
    }
  }

  lemma ParentApart(t: Trie, lo: nat, e: nat, f: Sizing, path: seq<bool>)
    requires Ok(t, lo, e) && Holds(t, f) && OnTrie(t, path) && Sub(t, path).Node? && path != []
    ensures var q := ParentAt(t, path, 0); q in Addrs(t) && q in f && !IsSmall(f[q]) && q !in Addrs(Sub(t, path))
  {
    ParentIsPrefix(t, path, 0);
    var p, b := path[..|path| - 1], path[|path| - 1];
    SubHolds(t, f, p);
    PathBounded(t, lo, e, p);
    SubOk(t, lo, e, p);
    TopOfSub(t, f, p);
    assert Sub(t, p).ring[0] in Sub(t, p).ring;
    PartsDisjoint(Sub(t, p), LoAt(lo, e, p), e - |p|, f, AddrOf(Sub(t, p)));
  }

  /** The chunks of `s` that the second half writes to are in memory and come from the old subtree. */
  ghost predicate Adoptable(m: Mem, s: Trie, old_: set<int>) {
    && s.Node? && s.ring != [] && s.ring[0] in old_
    && s.ring[0] + PARENT in m && s.ring[0] + CHILD0 in m && s.ring[0] + CHILD1 in m
    && (AddrOf(s.left) != 0 ==> AddrOf(s.left) in old_ && AddrOf(s.left) + PARENT in m)
    && (AddrOf(s.right) != 0 ==> AddrOf(s.right) in old_ && AddrOf(s.right) + PARENT in m)
  }

  /** `Adopted` for the ring and the subtrees of `s`. */
  function AdoptedBy(m: Mem, slot: int, s: Trie, par: int): Mem
    requires slot in m && Adoptable(m, s, Addrs(s))
  {
    Adopted(m, slot, s.ring[0], par, AddrOf(s.left), AddrOf(s.right))
  }

  /** The words of all chunks outside the subtree, save the parent's child word, and the bin header. */
  lemma AroundReplaced(m: Mem, m1: Mem, m2: Mem, f: Sizing, ms: int, i: nat, t: Trie, path: seq<bool>, s: Trie,
      par: int)
    requires i < NTREEBINS && Chunks(m, f, ms) && TreeOk(m, f, ms, i, t, true) && OnTrie(t, path) && Sub(t, path).Node?
    requires Touches(m, m1, f, ms, Addrs(Sub(t, path)), TreeBinAt(ms, i), TreeBinAt(ms, i))
    requires Adoptable(m1, s, Addrs(Sub(t, path))) && TreeSlot(t, path, TreeBinAt(ms, i)) in m1
    requires m2 == Adopted(m1, TreeSlot(t, path, TreeBinAt(ms, i)), s.ring[0], par, AddrOf(s.left), AddrOf(s.right))
    ensures forall q :: q in Addrs(t) && q !in Addrs(Sub(t, path)) && (path == [] || q != ParentAt(t, path, 0)) ==>
              SameNode(m, m2, q)
    ensures path != [] ==>
      SameWord(m, m2, TreeBinAt(ms, i)) && SameButChild(m, m2, ParentAt(t, path, 0), path[|path| - 1])
  {
    hide Adoptable, Chunks, Touches, Adopted, Ok, Holds, At;
    SlotIsClear(f, ms, m, i, t, BinLo(i), BinBits(i), path);
    forall q | q in Addrs(t) && q !in Addrs(Sub(t, path)) && (path == [] || q != ParentAt(t, path, 0))
      ensures SameNode(m, m2, q)
    {
      AroundOne(m, m1, f, ms, i, t, path, s, par, q);
    }
    if path != [] {
      AroundParent(m, m1, f, ms, i, t, path, s, par);
    }
  }

  lemma AroundOne(m: Mem, m1: Mem, f: Sizing, ms: int, i: nat, t: Trie, path: seq<bool>, s: Trie, par: int, q: int)
    requires i < NTREEBINS && Chunks(m, f, ms) && Ok(t, BinLo(i), BinBits(i)) && Holds(t, f) && OnTrie(t, path)
    requires Sub(t, path).Node?
    requires Touches(m, m1, f, ms, Addrs(Sub(t, path)), TreeBinAt(ms, i), TreeBinAt(ms, i))
    requires Adoptable(m1, s, Addrs(Sub(t, path))) && TreeSlot(t, path, TreeBinAt(ms, i)) in m1
    requires q in Addrs(t) && q !in Addrs(Sub(t, path)) && (path == [] || q != ParentAt(t, path, 0))
    ensures SameNode(m,
        Adopted(m1, TreeSlot(t, path, TreeBinAt(ms, i)), s.ring[0], par, AddrOf(s.left), AddrOf(s.right)), q)
  {
    var h, n := TreeBinAt(ms, i), Sub(t, path);
    SlotIsClear(f, ms, m, i, t, BinLo(i), BinBits(i), path);
    AddrHasSize(t, f, q);
    ChunkFacts(m, f, ms, q);
    UntouchedLinks(m, m1, f, ms, Addrs(n), h, h, q);
    if path != [] {
      AddrHasSize(t, f, ParentAt(t, path, 0));
      Far(f, q, ParentAt(t, path, 0));
    }
    Far(f, q, s.ring[0]);
    if AddrOf(s.left) != 0 { Far(f, q, AddrOf(s.left)); }
    if AddrOf(s.right) != 0 { Far(f, q, AddrOf(s.right)); }
    AdoptedSame(m1, TreeSlot(t, path, h), s.ring[0], par, AddrOf(s.left), AddrOf(s.right), q);
  }

  lemma AroundParent(m: Mem, m1: Mem, f: Sizing, ms: int, i: nat, t: Trie, path: seq<bool>, s: Trie, par: int)
    requires i < NTREEBINS && Chunks(m, f, ms) && Ok(t, BinLo(i), BinBits(i)) && Holds(t, f) && OnTrie(t, path)
    requires path != [] && Sub(t, path).Node?
    requires Touches(m, m1, f, ms, Addrs(Sub(t, path)), TreeBinAt(ms, i), TreeBinAt(ms, i))
    requires Adoptable(m1, s, Addrs(Sub(t, path))) && TreeSlot(t, path, TreeBinAt(ms, i)) in m1
    ensures var m2 := Adopted(m1, TreeSlot(t, path, TreeBinAt(ms, i)), s.ring[0], par, AddrOf(s.left), AddrOf(s.right));
      SameWord(m, m2, TreeBinAt(ms, i)) && SameButChild(m, m2, ParentAt(t, path, 0), path[|path| - 1])
  {
    var h, n, p := TreeBinAt(ms, i), Sub(t, path), ParentAt(t, path, 0);
    hide Chunks, Ok, Holds, Touches, Adopted, Adoptable, BinLo, BinBits, OnTrie, Sub, Addrs;
    SlotIsClear(f, ms, m, i, t, BinLo(i), BinBits(i), path);
    AddrHasSize(t, f, p);
    UntouchedLinks(m, m1, f, ms, Addrs(n), h, h, p);
    HeaderElsewhere(m, m1, f, ms, Addrs(n), h, h, h);
    ParentFar(m, f, ms, i, n, s, m1, p);
    AdoptedParent(m1, p, path[|path| - 1], h, s.ring[0], par, AddrOf(s.left), AddrOf(s.right));
  }

  lemma ParentFar(m: Mem, f: Sizing, ms: int, i: nat, n: Trie, s: Trie, m1: Mem, p: int)
    requires i < NTREEBINS && Chunks(m, f, ms) && AllLarge(f, Addrs(n)) && Adoptable(m1, s, Addrs(n)) && p in f
    requires !IsSmall(f[p]) && p !in Addrs(n)
    ensures FarApart(p, s.ring[0]) && Outside(TreeBinAt(ms, i), s.ring[0]) && Outside(TreeBinAt(ms, i), p)
    ensures AddrOf(s.left) != 0 ==> FarApart(p, AddrOf(s.left)) && Outside(TreeBinAt(ms, i), AddrOf(s.left))
    ensures AddrOf(s.right) != 0 ==> FarApart(p, AddrOf(s.right)) && Outside(TreeBinAt(ms, i), AddrOf(s.right))
  {
    hide Chunks;
    HeaderOutside(m, f, ms, i, p);
    Far(f, p, s.ring[0]);
    HeaderOutside(m, f, ms, i, s.ring[0]);
    if AddrOf(s.left) != 0 { Far(f, p, AddrOf(s.left)); HeaderOutside(m, f, ms, i, AddrOf(s.left)); }
    if AddrOf(s.right) != 0 { Far(f, p, AddrOf(s.right)); HeaderOutside(m, f, ms, i, AddrOf(s.right)); }
  }

  lemma HeaderOutside(m: Mem, f: Sizing, ms: int, i: nat, p: int)
    requires i < NTREEBINS && Chunks(m, f, ms) && p in f && !IsSmall(f[p])
    ensures Outside(TreeBinAt(ms, i), p)
  {
    ChunkFacts(m, f, ms, p);
  }

  lemma AdoptedParent(m: Mem, p: int, b: bool, h: int, r: int, par: int, c0: int, c1: int)
    requires ChildWord(p, b) in m && r + PARENT in m && r + CHILD0 in m && r + CHILD1 in m
    requires (c0 != 0 ==> c0 + PARENT in m && FarApart(p, c0) && Outside(h, c0))
    requires (c1 != 0 ==> c1 + PARENT in m && FarApart(p, c1) && Outside(h, c1))
    requires FarApart(p, r) && Outside(h, r) && Outside(h, p)
    ensures var m' := Adopted(m, ChildWord(p, b), r, par, c0, c1); SameWord(m, m', h) && SameButChild(m, m', p, b)
  {}

  // ----- the whole of an unlinking -----

  /** The tree after unlinking the chunk at position `k` of the ring at the end of the path. */
  function TreeWithout(t: Trie, path: seq<bool>, k: nat): Trie
    requires OnTrie(t, path) && Sub(t, path).Node? && k < |Sub(t, path).ring|
  {
    Put(t, path, Unlinked(Sub(t, path), k))
  }

  /** It is a trie over the same range, without that chunk and no other. */
  lemma TreeWithoutOk(t: Trie, lo: nat, e: nat, f: Sizing, path: seq<bool>, k: nat)
    requires Ok(t, lo, e) && Holds(t, f) && OnTrie(t, path) && Sub(t, path).Node? && k < |Sub(t, path).ring|
    ensures var t', x := TreeWithout(t, path, k), Sub(t, path).ring[k];
      && Ok(t', lo, e) && Holds(t', f - {x}) && Sizes(t') <= Sizes(t) && x in Addrs(t)
      && (forall p :: p in Addrs(t') <==> p in Addrs(t) && p != x)
  {
    hide Ok, Holds, Put, Unlinked;
    var n, x := Sub(t, path), Sub(t, path).ring[k];
    PathBounded(t, lo, e, path);
    SubHolds(t, f, path);
    SubOk(t, lo, e, path);
    UnlinkedOk(n, LoAt(lo, e, path), e - |path|, f, k);
    forall p ensures p in Addrs(Unlinked(n, k)) <==> p in Addrs(n) && p != x {
      UnlinkedAddrs(n, LoAt(lo, e, path), e - |path|, f, k, p);
    }
    HoldsKept(Unlinked(n, k), f, f - {x});
    PutLoses(t, lo, e, f, path, Unlinked(n, k), f - {x}, x);
  }

  lemma FromHalfway(m: Mem, s: Trie, lo: nat, e: nat, f: Sizing, x: int, slot: int, par: int, i: nat)
    requires Halfway(m, s, x, par, i) && Ok(s, lo, e) && Holds(s, f) && slot in m && Clear(f, Addrs(s), slot)
    ensures Adoptable(m, s, Addrs(s))
    ensures var m' := Adopted(m, slot, s.ring[0], par, AddrOf(s.left), AddrOf(s.right));
      At(m', s, par, i) && NumAt(m', slot, AddrOf(s))
  {
    Adopt(m, s, lo, e, f, x, slot, par, i);
    AdoptReady(m, s, lo, e, f, x, slot, i);
  }

  lemma ClearIn(f: Sizing, s: set<int>, s': set<int>, slot: int)
    requires Clear(f, s, slot) && forall p :: p in s' ==> p in s
    ensures Clear(f, s', slot)
  {}

  /** The replacement is in place: the tree lies in memory without the chunk. */
  lemma SecondHalf(m: Mem, m1: Mem, m2: Mem, f: Sizing, ms: int, i: nat, t: Trie, path: seq<bool>, s: Trie)
    requires i < NTREEBINS && Chunks(m, f, ms) && t.Node? && TreeOk(m, f, ms, i, t, true)
    requires OnTrie(t, path) && Sub(t, path).Node? && Sub(t, path).ring != [] && s == Unlinked(Sub(t, path), 0)
    requires s.Node? && s.ring != []
    requires Halfway(m1, s, Sub(t, path).ring[0], ParentAt(t, path, TreeBinAt(ms, i)), i)
    requires Touches(m, m1, f, ms, Addrs(Sub(t, path)), TreeBinAt(ms, i), TreeBinAt(ms, i))
    requires TreeSlot(t, path, TreeBinAt(ms, i)) in m1 && Adoptable(m1, s, Addrs(s))
    requires m2 == AdoptedBy(m1, TreeSlot(t, path, TreeBinAt(ms, i)), s, ParentAt(t, path, TreeBinAt(ms, i)))
    ensures At(m2, Put(t, path, s), TreeBinAt(ms, i), i) && NumAt(m2, TreeBinAt(ms, i), AddrOf(Put(t, path, s)))
  {
    hide Put, Adopted, Touches, Chunks, Unlinked, Halfway, TreeOk, Ok, Holds, At, Adoptable, BinLo, BinBits, Clear;
    TreeParts(m, f, ms, i, t);
    var lo, e, h, n := BinLo(i), BinBits(i), TreeBinAt(ms, i), Sub(t, path);
    var par, slot := ParentAt(t, path, h), TreeSlot(t, path, h);
    SubUnlinked(t, lo, e, f, path);
    SlotIsClear(f, ms, m, i, t, lo, e, path);
    ClearIn(f, Addrs(n), Addrs(s), slot);
    AdoptableIn(m1, s, Addrs(s), Addrs(n));
    FromHalfway(m1, s, LoAt(lo, e, path), e - |path|, f, n.ring[0], slot, par, i);
    AroundReplaced(m, m1, m2, f, ms, i, t, path, s, par);
    ReplacedTree(m, m2, f, ms, i, t, path, s);
  }

  lemma TreeParts(m: Mem, f: Sizing, ms: int, i: nat, t: Trie)
    requires i < NTREEBINS && TreeOk(m, f, ms, i, t, t.Node?)
    ensures Ok(t, BinLo(i), BinBits(i)) && Holds(t, f) && At(m, t, TreeBinAt(ms, i), i)
    ensures NumAt(m, TreeBinAt(ms, i), AddrOf(t))
  {}

  lemma AdoptableIn(m: Mem, s: Trie, from: set<int>, to: set<int>)
    requires Adoptable(m, s, from) && forall p :: p in from ==> p in to
    ensures Adoptable(m, s, to)
  {}

  lemma SubUnlinked(t: Trie, lo: nat, e: nat, f: Sizing, path: seq<bool>)
    requires Ok(t, lo, e) && Holds(t, f) && OnTrie(t, path) && Sub(t, path).Node? && Sub(t, path).ring != []
    ensures |path| <= e
    ensures var s := Unlinked(Sub(t, path), 0);
      Ok(s, LoAt(lo, e, path), e - |path|) && Holds(s, f) && forall p :: p in Addrs(s) ==> p in Addrs(Sub(t, path))
  {
    hide Unlinked;
    PathBounded(t, lo, e, path);
    SubHolds(t, f, path);
    SubOk(t, lo, e, path);
    UnlinkedOk(Sub(t, path), LoAt(lo, e, path), e - |path|, f, 0);
    forall p | p in Addrs(Unlinked(Sub(t, path), 0)) ensures p in Addrs(Sub(t, path)) {
      UnlinkedAddrs(Sub(t, path), LoAt(lo, e, path), e - |path|, f, 0, p);
    }
  }

  /** What the two halves wrote to: chunks of the one tree, and its header. */
  lemma SecondHalfTouches(m: Mem, m1: Mem, m2: Mem, f: Sizing, ms: int, i: nat, t: Trie, path: seq<bool>, s: Trie,
      par: int)
    requires i < NTREEBINS && Chunks(m, f, ms) && t.Node? && TreeOk(m, f, ms, i, t, true)
    requires OnTrie(t, path) && Sub(t, path).Node? && Sub(t, path).ring != [] && s == Unlinked(Sub(t, path), 0)
    requires Touches(m, m1, f, ms, Addrs(Sub(t, path)), TreeBinAt(ms, i), TreeBinAt(ms, i))
    requires TreeSlot(t, path, TreeBinAt(ms, i)) in m1 && Adoptable(m1, s, Addrs(s))
    requires m2 == AdoptedBy(m1, TreeSlot(t, path, TreeBinAt(ms, i)), s, par)
    ensures Touches(m, m2, f, ms, Addrs(t), TreeBinAt(ms, i), TreeBinAt(ms, i) + 8)
  {
    hide AdoptedBy, Chunks, Touches, Ok, Holds, Adoptable, Unlinked, TreeOk;
    var h := TreeBinAt(ms, i);
    TreeParts(m, f, ms, i, t);
    SubHolds(t, f, path);
    SubUnlinked(t, BinLo(i), BinBits(i), f, path);
    if path != [] { ParentApart(t, BinLo(i), BinBits(i), f, path); }
    forall p | p in Addrs(t) ensures p in f && !IsSmall(f[p]) { AddrHasSize(t, f, p); }
    SameKeys(m1, m2, TreeSlot(t, path, h), s, par);
    forall a | a in m1 && m2[a] != m1[a] ensures h <= a < h + 8 || InChunks(f, Addrs(t), a) {
      SecondHalfWrites(m1, m2, f, ms, i, t, path, s, par, a);
    }
    TouchesThen(m, m1, m2, f, ms, Addrs(Sub(t, path)), Addrs(t), h, h + 8);
  }

  lemma SameKeys(m1: Mem, m2: Mem, slot: int, s: Trie, par: int)
    requires Adoptable(m1, s, Addrs(s)) && slot in m1
    requires m2 == AdoptedBy(m1, slot, s, par)
    ensures m2.Keys == m1.Keys
  {}

  lemma TouchesThen(m: Mem, m1: Mem, m2: Mem, f: Sizing, ms: int, s1: set<int>, s2: set<int>, lo: int, hi: int)
    requires Touches(m, m1, f, ms, s1, lo, lo) && m2.Keys == m1.Keys && s1 <= s2 && lo <= hi <= ms + HEADERS_END
    requires forall p :: p in s2 ==> p in f
    requires forall a :: a in m1 && m2[a] != m1[a] ==> lo <= a < hi || InChunks(f, s2, a)
    ensures Touches(m, m2, f, ms, s2, lo, hi)
  {}

  ghost predicate InChunks(f: Sizing, s: set<int>, a: int) {
    exists p: int :: p in s && p in f && p + FD <= a < p + f[p]
  }

  lemma SecondHalfWrites(m1: Mem, m2: Mem, f: Sizing, ms: int, i: nat, t: Trie, path: seq<bool>, s: Trie, par: int,
      a: int)
    requires OnTrie(t, path) && Adoptable(m1, s, Addrs(s)) && (forall p :: p in Addrs(s) ==> p in Addrs(t))
    requires forall p :: p in Addrs(t) ==> p in f && !IsSmall(f[p])
    requires path != [] ==> ParentAt(t, path, 0) in Addrs(t)
    requires TreeSlot(t, path, TreeBinAt(ms, i)) in m1
    requires m2 == AdoptedBy(m1, TreeSlot(t, path, TreeBinAt(ms, i)), s, par)
    requires a in m1 && m2[a] != m1[a]
    ensures a == TreeBinAt(ms, i) || InChunks(f, Addrs(t), a)
  {
    hide Adopted;
    var r, c0, c1, slot := s.ring[0], AddrOf(s.left), AddrOf(s.right), TreeSlot(t, path, TreeBinAt(ms, i));
    AdoptedWrites(m1, slot, r, par, c0, c1, a);
    if r + FD <= a < r + 64 {
      InOneChunk(f, Addrs(t), r, a);
    } else if c0 != 0 && c0 + FD <= a < c0 + 64 {
      InOneChunk(f, Addrs(t), c0, a);
    } else if c1 != 0 && c1 + FD <= a < c1 + 64 {
      InOneChunk(f, Addrs(t), c1, a);
    } else if path != [] {
      InOneChunk(f, Addrs(t), ParentAt(t, path, 0), a);
    }
  }

  lemma InOneChunk(f: Sizing, s: set<int>, p: int, a: int)
    requires p in s && p in f && !IsSmall(f[p]) && p + FD <= a < p + 64
    ensures InChunks(f, s, a)
  {}

  lemma AdoptedWrites(m: Mem, slot: int, r: int, par: int, c0: int, c1: int, a: int)
    requires slot in m && r + PARENT in m && r + CHILD0 in m && r + CHILD1 in m
    requires (c0 != 0 ==> c0 + PARENT in m) && (c1 != 0 ==> c1 + PARENT in m)
    requires a in m && Adopted(m, slot, r, par, c0, c1)[a] != m[a]
    ensures a == slot || r + FD <= a < r + 64
      || (c0 != 0 && c0 + FD <= a < c0 + 64) || (c1 != 0 && c1 + FD <= a < c1 + 64)
  {}

  /** The only chunk of its size in a leaf: the slot that pointed to it becomes null. */
  lemma EmptyHalf(m: Mem, m2: Mem, f: Sizing, ms: int, i: nat, t: Trie, path: seq<bool>)
    requires i < NTREEBINS && Chunks(m, f, ms) && t.Node? && TreeOk(m, f, ms, i, t, true)
    requires OnTrie(t, path) && Sub(t, path).Node? && TreeSlot(t, path, TreeBinAt(ms, i)) in m
    requires m2 == Store(m, TreeSlot(t, path, TreeBinAt(ms, i)), Data(0))
    ensures At(m2, Put(t, path, Empty), TreeBinAt(ms, i), i) && NumAt(m2, TreeBinAt(ms, i), AddrOf(Put(t, path, Empty)))
    ensures Touches(m, m2, f, ms, Addrs(t), TreeBinAt(ms, i), TreeBinAt(ms, i) + 8)
  {
    hide Put, Ok, Holds, Touches;
    TreeParts(m, f, ms, i, t);
    LargeIn(m, f, ms, t);
    var h := TreeBinAt(ms, i);
    if path != [] {
      ParentApart(t, BinLo(i), BinBits(i), f, path);
      EmptyBelow(m, m2, f, ms, i, t, ParentAt(t, path, 0), path[|path| - 1]);
    } else {
      assert Touches(m, m2, f, ms, Addrs(t), h, h + 8) by { EmptyRoot(m, m2, f, ms, i, t); }
    }
    ReplacedTree(m, m2, f, ms, i, t, path, Empty);
  }

  lemma EmptyRoot(m: Mem, m2: Mem, f: Sizing, ms: int, i: nat, t: Trie)
    requires i < NTREEBINS && AllLarge(f, Addrs(t)) && TreeBinAt(ms, i) in m
    requires m2 == Store(m, TreeBinAt(ms, i), Data(0))
    ensures Touches(m, m2, f, ms, Addrs(t), TreeBinAt(ms, i), TreeBinAt(ms, i) + 8)
  {}

  lemma EmptyBelow(m: Mem, m2: Mem, f: Sizing, ms: int, i: nat, t: Trie, y: int, b: bool)
    requires i < NTREEBINS && Chunks(m, f, ms) && AllLarge(f, Addrs(t)) && y in Addrs(t) && ChildWord(y, b) in m
    requires m2 == Store(m, ChildWord(y, b), Data(0))
    ensures Touches(m, m2, f, ms, Addrs(t), TreeBinAt(ms, i), TreeBinAt(ms, i) + 8)
    ensures forall q :: q in Addrs(t) && q != y ==> SameNode(m, m2, q)
    ensures SameWord(m, m2, TreeBinAt(ms, i)) && SameButChild(m, m2, y, b)
  {
    EmptyBelowOthers(m, m2, f, t, y, b);
    ChunkFacts(m, f, ms, y);
    InOneChunk(f, Addrs(t), y, ChildWord(y, b));
  }

  lemma EmptyBelowOthers(m: Mem, m2: Mem, f: Sizing, t: Trie, y: int, b: bool)
    requires AllLarge(f, Addrs(t)) && y in Addrs(t) && ChildWord(y, b) in m && m2 == Store(m, ChildWord(y, b), Data(0))
    ensures forall q :: q in Addrs(t) && q != y ==> SameNode(m, m2, q)
  {
    forall q | q in Addrs(t) && q != y ensures SameNode(m, m2, q) { Far(f, q, y); }
  }

  /** A chunk further back in its ring only leaves the ring. */
  lemma ChainHalf(m: Mem, m2: Mem, f: Sizing, ms: int, i: nat, t: Trie, path: seq<bool>, k: nat)
    requires i < NTREEBINS && Chunks(m, f, ms) && t.Node? && TreeOk(m, f, ms, i, t, true)
    requires OnTrie(t, path) && Sub(t, path).Node? && 0 < k < |Sub(t, path).ring|
    requires var c := Sub(t, path).ring;
      c[k - 1] + FD in m && c[After(c, k)] + BK in m && m2 == LinkPast(m, c[k - 1], c[After(c, k)])
    ensures At(m2, TreeWithout(t, path, k), TreeBinAt(ms, i), i)
    ensures NumAt(m2, TreeBinAt(ms, i), AddrOf(TreeWithout(t, path, k))) && TreeWithout(t, path, k).Node?
    ensures Touches(m, m2, f, ms, Addrs(t), TreeBinAt(ms, i), TreeBinAt(ms, i))
  {
    hide Put, Ok, Holds, At, AllLarge, LinkPast, Touches, TreeOk, Chunks;
    TreeParts(m, f, ms, i, t);
    var h, n := TreeBinAt(ms, i), Sub(t, path);
    SubHolds(t, f, path);
    LargeIn(m, f, ms, t);
    ChainTreeTouches(m, f, ms, i, t, n, k);
    forall q | q in Addrs(t) && q !in Addrs(n) ensures SameNode(m, m2, q) {
      ChainElsewhere(m, f, t, n, k, q);
    }
    ChainHalfAt(m, m2, f, ms, i, t, BinLo(i), BinBits(i), path, k);
    HeaderElsewhere(m, m2, f, ms, Addrs(t), h, h, h);
    PutNode(t, path, Unlinked(n, k));
  }

  lemma ChainHalfAt(m: Mem, m2: Mem, f: Sizing, ms: int, i: nat, t: Trie, lo: nat, e: nat, path: seq<bool>, k: nat)
    requires Chunks(m, f, ms) && Ok(t, lo, e) && Holds(t, f) && At(m, t, TreeBinAt(ms, i), i)
    requires OnTrie(t, path) && Sub(t, path).Node? && 0 < k < |Sub(t, path).ring|
    requires var c := Sub(t, path).ring;
      c[k - 1] + FD in m && c[After(c, k)] + BK in m && m2 == LinkPast(m, c[k - 1], c[After(c, k)])
    requires forall q :: q in Addrs(t) && q !in Addrs(Sub(t, path)) ==> SameNode(m, m2, q)
    ensures At(m2, TreeWithout(t, path, k), TreeBinAt(ms, i), i) && AddrOf(TreeWithout(t, path, k)) == AddrOf(t)
  {
    hide Put, Ok, Holds, At, AllLarge, LinkPast, Chunks;
    var n := Sub(t, path);
    var s := n.(ring := UnlinkedFrom(n.ring, k));
    PathBounded(t, lo, e, path);
    SubHolds(t, f, path);
    SubOk(t, lo, e, path);
    AtSub(m, t, TreeBinAt(ms, i), i, path);
    LargeIn(m, f, ms, n);
    ChainedLeaves(m, n, LoAt(lo, e, path), e - |path|, f, ParentAt(t, path, TreeBinAt(ms, i)), i, k);
    AtPut(m, m2, t, lo, e, f, TreeBinAt(ms, i), i, path, s);
  }

  lemma PutNode(t: Trie, path: seq<bool>, s: Trie)
    requires OnTrie(t, path) && s.Node?
    ensures Put(t, path, s).Node?
  {}

  lemma LargeIn(m: Mem, f: Sizing, ms: int, t: Trie)
    requires Chunks(m, f, ms) && Holds(t, f)
    ensures AllLarge(f, Addrs(t))
  {
    forall p | p in Addrs(t)
      ensures p in f && p > 0 && !IsSmall(f[p])
    {
      AddrHasSize(t, f, p);
      ChunkFacts(m, f, ms, p);
    }
  }

  lemma ChainElsewhere(m: Mem, f: Sizing, t: Trie, n: Trie, k: nat, q: int)
    requires n.Node? && 0 < k < |n.ring| && AllLarge(f, Addrs(t)) && (forall p :: p in Addrs(n) ==> p in Addrs(t))
    requires q in Addrs(t) && q !in Addrs(n)
    requires n.ring[k - 1] + FD in m && n.ring[After(n.ring, k)] + BK in m
    ensures SameNode(m, LinkPast(m, n.ring[k - 1], n.ring[After(n.ring, k)]), q)
  {
    hide SameNode, LinkPast;
    var b, a := n.ring[k - 1], n.ring[After(n.ring, k)];
    assert b in n.ring && a in n.ring;
    Far(f, q, b);
    Far(f, q, a);
    LinkedFarAway(m, b, a, q);
  }

  lemma LinkedFarAway(m: Mem, b: int, a: int, q: int)
    requires b + FD in m && a + BK in m && FarApart(q, b) && FarApart(q, a)
    ensures SameNode(m, LinkPast(m, b, a), q)
  {}

  lemma ChainTreeTouches(m: Mem, f: Sizing, ms: int, i: nat, t: Trie, n: Trie, k: nat)
    requires i < NTREEBINS && n.Node? && 0 < k < |n.ring| && AllLarge(f, Addrs(t))
    requires forall p :: p in Addrs(n) ==> p in Addrs(t)
    requires n.ring[k - 1] + FD in m && n.ring[After(n.ring, k)] + BK in m
    ensures Touches(m, LinkPast(m, n.ring[k - 1], n.ring[After(n.ring, k)]), f, ms, Addrs(t), TreeBinAt(ms, i),
        TreeBinAt(ms, i))
  {
    var b, a := n.ring[k - 1], n.ring[After(n.ring, k)];
    assert b in n.ring && a in n.ring;
    InOneChunk(f, Addrs(t), b, b + FD);
    InOneChunk(f, Addrs(t), a, a + BK);
  }

  /** The bins after the unlinking hold everything but that chunk; the map bit goes with the last one. */
  lemma UnlinkedBins(m: Mem, m2: Mem, f: Sizing, ms: int, h: Held, sm: Word32, tm: Word32, i: nat, path: seq<bool>,
      k: nat, hi: int, tm': Word32)
    requires BinsHold(m, f, ms, h, sm, tm) && i < NTREEBINS && |h.trees| == NTREEBINS
    requires OnTrie(h.trees[i], path) && Sub(h.trees[i], path).Node? && k < |Sub(h.trees[i], path).ring|
    requires Touches(m, m2, f, ms, Addrs(h.trees[i]), TreeBinAt(ms, i), hi) && hi <= TreeBinAt(ms, i) + 8
    requires var t' := TreeWithout(h.trees[i], path, k);
      && At(m2, t', TreeBinAt(ms, i), i) && NumAt(m2, TreeBinAt(ms, i), AddrOf(t'))
      && tm' == if t'.Empty? then And(tm, Not(Idx2Bit(i))) else tm
    ensures var x := Sub(h.trees[i], path).ring[k];
      && x in f && BinsHold(m2, f - {x}, ms, Held(h.small, h.trees[i := TreeWithout(h.trees[i], path, k)]), sm, tm')
      && OnlyBins(m, m2, f, ms)
  {
    hide TreeWithout, Touches, At, BinsHold, Smalls, Trees, OnTrie, Sub, ComputeTreeIndex, Holds, Chunks, Complete;
    var t, t', x := h.trees[i], TreeWithout(h.trees[i], path, k), Sub(h.trees[i], path).ring[k];
    TreeBinFacts(m, f, ms, h, sm, tm, i);
    assert t.Node? by { NodeAbove(t, path); }
    TreeWithoutOk(t, BinLo(i), BinBits(i), f, path, k);
    forall q | q in Addrs(t) ensures q in f && !IsSmall(f[q]) && ComputeTreeIndex(f[q]) == i { AddrHasSize(t, f, q); }
    assert TreeOk(m2, f - {x}, ms, i, t', tm'[i]);
    assert Complete(f, h) by { HeldComplete(m, f, ms, h, sm, tm); }
    CompleteLoses(f, h, i, t', x);
    TreeBinChanged(m, m2, f, f - {x}, f, ms, h, sm, tm, i, t', tm', Addrs(t), hi);
  }

  lemma TouchesWiden(m: Mem, m2: Mem, f: Sizing, ms: int, s: set<int>, lo: int, hi: int)
    requires Touches(m, m2, f, ms, s, lo, lo) && lo <= hi <= ms + HEADERS_END
    ensures Touches(m, m2, f, ms, s, lo, hi)
  {}

  /** Where the unlinking of `x` starts: its place in the tree of its bin. */
  lemma LocateInTree(m: Mem, f: Sizing, ms: int, h: Held, sm: Word32, tm: Word32,
      x: int) returns (i: nat, path: seq<bool>, k: nat)
    requires BinsHold(m, f, ms, h, sm, tm) && x in f && !IsSmall(f[x])
    ensures i < NTREEBINS && |h.trees| == NTREEBINS && h.trees[i].Node? && TreeOk(m, f, ms, i, h.trees[i], true)
    ensures Chunks(m, f, ms)
    ensures OnTrie(h.trees[i], path) && Sub(h.trees[i], path).Node? && k < |Sub(h.trees[i], path).ring|
    ensures Sub(h.trees[i], path).ring[k] == x
  {
    hide At, Ok, Holds, Smalls;
    i := ComputeTreeIndex(f[x]);
    TreeBinFacts(m, f, ms, h, sm, tm, i);
    HeldComplete(m, f, ms, h, sm, tm);
    path := PathTo(h.trees[i], x);
    NodeAbove(h.trees[i], path);
    k :| 0 <= k < |Sub(h.trees[i], path).ring| && Sub(h.trees[i], path).ring[k] == x;
  }

  /** What the unlinking reads of the chunk at position `k` and its neighbours in the ring. */
  ghost predicate RingReads(m: Mem, c: seq<int>, k: nat, par: int, i: nat)
    requires k < |c|
  {
    var x, b, a := c[k], (if k > 0 then c[k - 1] else c[|c| - 1]), c[After(c, k)];
    && NumAt(m, x + PARENT, if k == 0 then par else 0) && NumAt(m, x + INDEX, i)
    && NumAt(m, x + BK, b) && NumAt(m, x + FD, a) && NumAt(m, a + BK, x) && NumAt(m, b + FD, x)
    && (b == x <==> |c| == 1) && b in c && a in c && x in c
  }

  lemma UnlinkReads(m: Mem, f: Sizing, ms: int, i: nat, t: Trie, path: seq<bool>, k: nat)
    requires i < NTREEBINS && Chunks(m, f, ms) && t.Node? && TreeOk(m, f, ms, i, t, true)
    requires OnTrie(t, path) && Sub(t, path).Node? && k < |Sub(t, path).ring|
    ensures RingReads(m, Sub(t, path).ring, k, ParentAt(t, path, TreeBinAt(ms, i)), i)
    ensures ParentAt(t, path, TreeBinAt(ms, i)) > 0 && Known(f, ms, ParentAt(t, path, TreeBinAt(ms, i)))
    ensures forall p :: p in Sub(t, path).ring ==> p in f
  {
    hide Ok, At, Holds, Chunks, TreeOk, AllLarge, RingReads;
    NodePlace(m, f, ms, i, t, path);
    TreeParts(m, f, ms, i, t);
    LargeIn(m, f, ms, Sub(t, path));
    RingWords(m, Sub(t, path), f, ParentAt(t, path, TreeBinAt(ms, i)), i, k);
    RingAfterState(m, f, ms, Sub(t, path));
    ParentPositive(m, f, ms, i, t, BinLo(i), BinBits(i), path);
  }

  lemma RingAfterState(m: Mem, f: Sizing, ms: int, n: Trie)
    requires Chunks(m, f, ms) && n.Node? && Holds(n, f)
    ensures forall p :: p in n.ring ==> p in f
  {
    forall p | p in n.ring ensures p in f { InAfterState(m, f, ms, n, p); }
  }

  lemma ParentPositive(m: Mem, f: Sizing, ms: int, i: nat, t: Trie, lo: nat, e: nat, path: seq<bool>)
    requires Chunks(m, f, ms) && i < NTREEBINS && Ok(t, lo, e) && Holds(t, f) && OnTrie(t, path) && Sub(t, path).Node?
    ensures ParentAt(t, path, TreeBinAt(ms, i)) > 0 && Known(f, ms, ParentAt(t, path, TreeBinAt(ms, i)))
  {
    if path != [] {
      ParentApart(t, lo, e, f, path);
      ParentIsPrefix(t, path, TreeBinAt(ms, i));
      ParentIsPrefix(t, path, 0);
      InAfterState(m, f, ms, t, ParentAt(t, path, 0));
    }
  }

  lemma InAfterState(m: Mem, f: Sizing, ms: int, n: Trie, p: int)
    requires Chunks(m, f, ms) && Holds(n, f) && p in Addrs(n)
    ensures p > 0 && p in f
  {
    AddrHasSize(n, f, p);
    ChunkFacts(m, f, ms, p);
  }

  lemma AtRing(m: Mem, n: Trie, par: int, i: nat)
    requires n.Node? && At(m, n, par, i)
    ensures RingAt(m, n.ring, par, i)
  {
    hide RingAt;
  }

  lemma RingAtReads(m: Mem, c: seq<int>, k: nat, par: int, i: nat)
    requires k < |c| && RingAt(m, c, par, i)
    requires |c| > 1 ==> c[if k > 0 then k - 1 else |c| - 1] != c[k]
    ensures RingReads(m, c, k, par, i)
  {
    var j := if k > 0 then k - 1 else |c| - 1;
    assert Link(m, c[k], c[After(c, k)]) && Link(m, c[j], c[After(c, j)]);
    assert NumAt(m, c[k] + INDEX, i);
    assert k > 0 ==> Chained(m, c[k]);
  }

  lemma RingWords(m: Mem, n: Trie, f: Sizing, par: int, i: nat, k: nat)
    requires n.Node? && k < |n.ring| && At(m, n, par, i) && Holds(n, f) && AllLarge(f, Addrs(n))
    ensures RingReads(m, n.ring, k, par, i)
  {
    hide At, Holds, AllLarge, RingAt, RingReads;
    AtRing(m, n, par, i);
    if |n.ring| > 1 { RingFar(n, f, if k > 0 then k - 1 else |n.ring| - 1, k); }
    RingAtReads(m, n.ring, k, par, i);
  }

  /** What the search for the leaf reads at the node it has come to. */
  lemma SeekReads(m: Mem, f: Sizing, ms: int, i: nat, n: Trie, lo: nat, e: nat, par: int, q: seq<bool>)
    requires Chunks(m, f, ms) && n.Node? && Ok(n, lo, e) && Holds(n, f) && At(m, n, par, i) && Seeking(n, q)
    ensures q != [] && OnTrie(n, q) && Sub(n, q).Node? && NodeReadable(m, f, ms, Sub(n, q)) && |q| <= e
    ensures OnTrie(n, q[..|q| - 1]) && SlotOf(n, q) in m && AddrOf(Sub(n, q[..|q| - 1])) in f
    ensures SlotOf(n, q) > AddrOf(Sub(n, q[..|q| - 1]))
  {
    hide Ok, Holds, At, Chunks, Seeking, OnTrie, Sub, NodeReadable;
    SeekPath(n, q);
    SubReads(m, f, ms, i, n, lo, e, par, q);
    PrefixOnTrie(n, q);
    SubReads(m, f, ms, i, n, lo, e, par, q[..|q| - 1]);
    ReadableSlots(m, f, ms, Sub(n, q[..|q| - 1]));
  }

  lemma ReadableSlots(m: Mem, f: Sizing, ms: int, n: Trie)
    requires NodeReadable(m, f, ms, n)
    ensures ChildWord(AddrOf(n), false) in m && ChildWord(AddrOf(n), true) in m && AddrOf(n) in f
  {}

  lemma SubReads(m: Mem, f: Sizing, ms: int, i: nat, n: Trie, lo: nat, e: nat, par: int, q: seq<bool>)
    requires Chunks(m, f, ms) && Ok(n, lo, e) && Holds(n, f) && At(m, n, par, i) && OnTrie(n, q) && Sub(n, q).Node?
    ensures NodeReadable(m, f, ms, Sub(n, q)) && |q| <= e
  {
    hide Ok, Holds, At, Chunks;
    SubHolds(n, f, q);
    AtSub(m, n, par, i, q);
    NodeReads(m, f, ms, i, Sub(n, q), ParentAt(n, q, par));
    PathBounded(n, lo, e, q);
  }

  lemma LeafTouches(m: Mem, f: Sizing, ms: int, i: nat, n: Trie, lo: nat, e: nat, q: seq<bool>)
    requires n.Node? && Ok(n, lo, e) && Holds(n, f) && AllLarge(f, Addrs(n)) && Seeking(n, q) && i < NTREEBINS
    requires OnTrie(n, q[..|q| - 1]) && SlotOf(n, q) in m
    ensures Touches(m, Store(m, SlotOf(n, q), Data(0)), f, ms, Addrs(n), TreeBinAt(ms, i), TreeBinAt(ms, i))
  {
    hide Ok, Holds;
    PrefixOnTrie(n, q);
    TopOfSub(n, f, q[..|q| - 1]);
    InOneChunk(f, Addrs(n), AddrOf(Sub(n, q[..|q| - 1])), SlotOf(n, q));
  }

  /** What the second half reads to find the slot that points to `x`. */
  ghost predicate SlotReadable(m: Mem, f: Sizing, ms: int, i: nat, t: Trie, path: seq<bool>, x: int)
    requires OnTrie(t, path)
  {
    && NumAt(m, TreeBinAt(ms, i), AddrOf(t)) && (AddrOf(t) == x <==> path == [])
    && TreeSlot(t, path, TreeBinAt(ms, i)) in m
    && (path != [] ==> var p, b := ParentAt(t, path, TreeBinAt(ms, i)), path[|path| - 1];
      && Known(f, ms, p) && p + CHILD0 in m && m[p + CHILD0].Data? && p + CHILD1 in m
      && (m[p + CHILD0].value == x <==> !b) && TreeSlot(t, path, TreeBinAt(ms, i)) == ChildWord(p, b))
  }

  lemma TakePlaceReads(m0: Mem, m1: Mem, f: Sizing, ms: int, i: nat, t: Trie, path: seq<bool>)
    requires i < NTREEBINS && Chunks(m0, f, ms) && t.Node? && TreeOk(m0, f, ms, i, t, true)
    requires OnTrie(t, path) && Sub(t, path).Node? && Sub(t, path).ring != []
    requires Touches(m0, m1, f, ms, Addrs(Sub(t, path)), TreeBinAt(ms, i), TreeBinAt(ms, i))
    ensures SlotReadable(m1, f, ms, i, t, path, Sub(t, path).ring[0])
  {
    hide Addrs, Sub, OnTrie, ParentAt, TreeSlot, ChunkOk, Ok, Holds, At, Touches, Chunks, TreeOk;
    TreeParts(m0, f, ms, i, t);
    var h := TreeBinAt(ms, i);
    HeaderElsewhere(m0, m1, f, ms, Addrs(Sub(t, path)), h, h, h);
    if path == [] {
      RootSlot(t, h);
    } else {
      SlotBelow(m0, m1, f, ms, i, t, path);
      RootElsewhere(t, BinLo(i), BinBits(i), f, path);
    }
  }

  lemma RootSlot(t: Trie, h: int)
    requires t.Node?
    ensures OnTrie(t, []) && Sub(t, []) == t && TreeSlot(t, [], h) == h
  {}

  lemma SlotBelow(m0: Mem, m1: Mem, f: Sizing, ms: int, i: nat, t: Trie, path: seq<bool>)
    requires i < NTREEBINS && Chunks(m0, f, ms) && t.Node? && TreeOk(m0, f, ms, i, t, true)
    requires path != [] && OnTrie(t, path) && Sub(t, path).Node? && Sub(t, path).ring != []
    requires Touches(m0, m1, f, ms, Addrs(Sub(t, path)), TreeBinAt(ms, i), TreeBinAt(ms, i))
    ensures var p, b := ParentAt(t, path, TreeBinAt(ms, i)), path[|path| - 1];
      && Known(f, ms, p) && p + CHILD0 in m1 && m1[p + CHILD0].Data? && p + CHILD1 in m1
      && (m1[p + CHILD0].value == Sub(t, path).ring[0] <==> !b)
      && TreeSlot(t, path, TreeBinAt(ms, i)) == ChildWord(p, b)
  {
    hide Ok, Holds, At, Touches, Chunks, TreeOk, BinLo, BinBits, OnTrie, Sub, ParentAt;
    TreeParts(m0, f, ms, i, t);
    var h := TreeBinAt(ms, i);
    ParentPositive(m0, f, ms, i, t, BinLo(i), BinBits(i), path);
    ParentApart(t, BinLo(i), BinBits(i), f, path);
    ParentIsPrefix(t, path, h);
    ParentIsPrefix(t, path, 0);
    UntouchedLinks(m0, m1, f, ms, Addrs(Sub(t, path)), h, h, ParentAt(t, path, 0));
    ParentWords(m0, f, i, t, BinLo(i), BinBits(i), h, path[..|path| - 1], path[|path| - 1]);
  }

  lemma RootElsewhere(t: Trie, lo: nat, e: nat, f: Sizing, path: seq<bool>)
    requires t.Node? && Ok(t, lo, e) && Holds(t, f) && OnTrie(t, path) && path != [] && Sub(t, path).Node?
    requires Sub(t, path).ring != []
    ensures AddrOf(t) != Sub(t, path).ring[0]
  {
    SubHolds(Child(t, path[0]), f, path[1..]);
    assert t.ring[0] in t.ring;
    PartsDisjoint(t, lo, e, f, t.ring[0]);
    assert Sub(t, path).ring[0] in Addrs(Sub(t, path));
  }

  lemma ParentWords(m: Mem, f: Sizing, i: nat, t: Trie, lo: nat, e: nat, h: int, p: seq<bool>, b: bool)
    requires Ok(t, lo, e) && Holds(t, f) && At(m, t, h, i) && OnTrie(t, p) && Sub(t, p).Node?
    requires Child(Sub(t, p), b).Node?
    ensures var y, x := AddrOf(Sub(t, p)), AddrOf(Child(Sub(t, p), b));
      && y + CHILD0 in m && m[y + CHILD0].Data? && y + CHILD1 in m && (m[y + CHILD0].value == x <==> !b)
  {
    hide Ok, Holds, At;
    PathBounded(t, lo, e, p);
    SubHolds(t, f, p);
    SubOk(t, lo, e, p);
    AtSub(m, t, h, i, p);
    NodeWords(m, f, i, Sub(t, p), LoAt(lo, e, p), e - |p|, ParentAt(t, p, h), b);
  }

  lemma NodeWords(m: Mem, f: Sizing, i: nat, c: Trie, lo: nat, e: nat, par: int, b: bool)
    requires c.Node? && Ok(c, lo, e) && Holds(c, f) && At(m, c, par, i) && Child(c, b).Node?
    ensures var y, x := AddrOf(c), AddrOf(Child(c, b));
      && y + CHILD0 in m && m[y + CHILD0].Data? && y + CHILD1 in m && (m[y + CHILD0].value == x <==> !b)
  {
    if b {
      assert c.right.ring[0] in c.right.ring;
      PartsDisjoint(c, lo, e, f, c.right.ring[0]);
      NullIsEmpty(m, c.right, c.ring[0], i);
      assert c.left.Node? ==> c.left.ring[0] in c.left.ring;
    }
  }

  /** What the second half reads and writes once the slot has been written. */
  ghost predicate ReadyToAdopt(m: Mem, f: Sizing, s: Trie, x: int, slot: int) {
    && Adoptable(m, s, Addrs(s)) && s.ring != [] && s.ring[0] in f && Outside(slot, x) && FarApart(x, s.ring[0])
    && NumAt(m, x + CHILD0, AddrOf(s.left)) && NumAt(m, x + CHILD1, AddrOf(s.right))
    && s.ring[0] + PARENT in m && s.ring[0] + CHILD0 in m && s.ring[0] + CHILD1 in m
    && (AddrOf(s.left) != 0 ==> AddrOf(s.left) in f && FarApart(x, AddrOf(s.left)) && AddrOf(s.left) + PARENT in m)
    && (AddrOf(s.right) != 0 ==> AddrOf(s.right) in f && FarApart(x, AddrOf(s.right)) && AddrOf(s.right) + PARENT in m)
  }

  lemma HalfwayReads(m0: Mem, m1: Mem, f: Sizing, ms: int, i: nat, t: Trie, path: seq<bool>)
    requires i < NTREEBINS && Chunks(m0, f, ms) && t.Node? && TreeOk(m0, f, ms, i, t, true)
    requires OnTrie(t, path) && Sub(t, path).Node? && Sub(t, path).ring != [] && Unlinked(Sub(t, path), 0).Node?
    requires Halfway(m1, Unlinked(Sub(t, path), 0), Sub(t, path).ring[0], ParentAt(t, path, TreeBinAt(ms, i)), i)
    ensures ReadyToAdopt(m1, f, Unlinked(Sub(t, path), 0), Sub(t, path).ring[0], TreeSlot(t, path, TreeBinAt(ms, i)))
  {
    hide Ok, Holds, At, Chunks, TreeOk, Unlinked, Loose, Halfway, Clear;
    TreeParts(m0, f, ms, i, t);
    var lo, e, slot, n := BinLo(i), BinBits(i), TreeSlot(t, path, TreeBinAt(ms, i)), Sub(t, path);
    SubUnlinked(t, lo, e, f, path);
    SubHolds(t, f, path);
    SlotIsClear(f, ms, m0, i, t, lo, e, path);
    PathBounded(t, lo, e, path);
    SubOk(t, lo, e, path);
    FarFromLeft(m0, f, ms, n, LoAt(lo, e, path), e - |path|, slot);
    HalfwayReady(m1, Unlinked(n, 0), LoAt(lo, e, path), e - |path|, f, n, slot, ParentAt(t, path, TreeBinAt(ms, i)), i);
  }

  lemma FarFromLeft(m0: Mem, f: Sizing, ms: int, n: Trie, lo: nat, e: nat, slot: int)
    requires Chunks(m0, f, ms) && n.Node? && n.ring != [] && Ok(n, lo, e) && Holds(n, f) && Clear(f, Addrs(n), slot)
    requires Holds(Unlinked(n, 0), f)
    ensures forall p :: p in Addrs(Unlinked(n, 0)) ==> FarApart(n.ring[0], p) && p in f && p in Addrs(n)
    ensures Outside(slot, n.ring[0])
  {
    hide Ok, Holds, Chunks, Unlinked;
    assert n.ring[0] in n.ring;
    forall p | p in Addrs(Unlinked(n, 0)) ensures FarApart(n.ring[0], p) && p in f && p in Addrs(n) {
      UnlinkedAddrs(n, lo, e, f, 0, p);
      FarIn(f, Addrs(n), slot, n.ring[0], p);
      InAfterState(m0, f, ms, Unlinked(n, 0), p);
    }
  }

  lemma HalfwayReady(m: Mem, s: Trie, lo: nat, e: nat, f: Sizing, n: Trie, slot: int, par: int, i: nat)
    requires n.Node? && n.ring != [] && Halfway(m, s, n.ring[0], par, i) && Ok(s, lo, e) && Holds(s, f)
    requires Clear(f, Addrs(n), slot) && Outside(slot, n.ring[0])
    requires forall p :: p in Addrs(s) ==> FarApart(n.ring[0], p) && p in f && p in Addrs(n)
    ensures ReadyToAdopt(m, f, s, n.ring[0], slot)
  {
    hide Ok, Holds, At, Ring;
    AdoptReady(m, s, lo, e, f, n.ring[0], slot, i);
  }

  lemma ReadyFacts(m: Mem, f: Sizing, s: Trie, x: int, slot: int)
    requires ReadyToAdopt(m, f, s, x, slot)
    ensures Adoptable(m, s, Addrs(s)) && s.ring != [] && s.ring[0] in f
  {}

  lemma HalfwayAddr(m: Mem, s: Trie, x: int, par: int, i: nat)
    requires Halfway(m, s, x, par, i)
    ensures s.Node? && s.ring != [] && AddrOf(s) > 0
  {}

  /** Whether the tree is empty after the unlinking. */
  lemma EmptyOrNot(t: Trie, path: seq<bool>, s: Trie)
    requires OnTrie(t, path)
    ensures Put(t, path, s).Empty? <==> path == [] && s.Empty?
  {}

  /** The node at the end of the path as a trie of its own. */
  lemma NodePlace(m: Mem, f: Sizing, ms: int, i: nat, t: Trie, path: seq<bool>)
    requires i < NTREEBINS && t.Node? && TreeOk(m, f, ms, i, t, true) && OnTrie(t, path) && Sub(t, path).Node?
    ensures |path| <= BinBits(i) && Ok(Sub(t, path), LoAt(BinLo(i), BinBits(i), path), BinBits(i) - |path|)
    ensures Holds(Sub(t, path), f) && At(m, Sub(t, path), ParentAt(t, path, TreeBinAt(ms, i)), i)
  {
    hide Ok, Holds, At, TreeOk, BinLo, BinBits;
    TreeParts(m, f, ms, i, t);
    SubPlace(m, f, t, BinLo(i), BinBits(i), TreeBinAt(ms, i), i, path);
  }

  lemma SubPlace(m: Mem, f: Sizing, t: Trie, lo: nat, e: nat, h: int, i: nat, path: seq<bool>)
    requires Ok(t, lo, e) && Holds(t, f) && At(m, t, h, i) && OnTrie(t, path) && Sub(t, path).Node?
    ensures |path| <= e && Ok(Sub(t, path), LoAt(lo, e, path), e - |path|)
    ensures Holds(Sub(t, path), f) && At(m, Sub(t, path), ParentAt(t, path, h), i)
  {
    hide Ok, Holds, At;
    PathBounded(t, lo, e, path);
    SubHolds(t, f, path);
    SubOk(t, lo, e, path);
    AtSub(m, t, h, i, path);
  }

  /** After relinking a ring of several: either that was all, or the last of the ring is to take over. */
  lemma RingHalf(m: Mem, m1: Mem, f: Sizing, ms: int, i: nat, t: Trie, path: seq<bool>, k: nat)
    requires i < NTREEBINS && Chunks(m, f, ms) && t.Node? && TreeOk(m, f, ms, i, t, true)
    requires OnTrie(t, path) && Sub(t, path).Node? && k < |Sub(t, path).ring| && |Sub(t, path).ring| > 1
    requires var c := Sub(t, path).ring; var b, a := (if k > 0 then c[k - 1] else c[|c| - 1]), c[After(c, k)];
      b + FD in m && a + BK in m && m1 == LinkPast(m, b, a)
    ensures var c, s := Sub(t, path).ring, Unlinked(Sub(t, path), 0);
      k == 0 ==>
        && s.Node? && AddrOf(s) == c[|c| - 1] && Halfway(m1, s, c[0], ParentAt(t, path, TreeBinAt(ms, i)), i)
        && NumAt(m1, c[0] + INDEX, i)
        && Touches(m, m1, f, ms, Addrs(Sub(t, path)), TreeBinAt(ms, i), TreeBinAt(ms, i))
    ensures k > 0 ==>
      && At(m1, TreeWithout(t, path, k), TreeBinAt(ms, i), i)
      && NumAt(m1, TreeBinAt(ms, i), AddrOf(TreeWithout(t, path, k)))
      && TreeWithout(t, path, k).Node? && Touches(m, m1, f, ms, Addrs(t), TreeBinAt(ms, i), TreeBinAt(ms, i))
  {
    hide Ok, Holds, At, Chunks, TreeOk, Touches, LinkPast, AllLarge, TreeWithout;
    if k > 0 {
      ChainHalf(m, m1, f, ms, i, t, path, k);
    } else {
      var n := Sub(t, path);
      NodePlace(m, f, ms, i, t, path);
      LargeIn(m, f, ms, n);
      HalfwayByRing(m, n, LoAt(BinLo(i), BinBits(i), path), BinBits(i) - |path|, f, ParentAt(t, path, TreeBinAt(ms, i)),
          i);
      HeadTouches(m, f, ms, i, n);
    }
  }

  lemma HeadTouches(m: Mem, f: Sizing, ms: int, i: nat, n: Trie)
    requires i < NTREEBINS && n.Node? && |n.ring| > 1 && AllLarge(f, Addrs(n))
    requires n.ring[|n.ring| - 1] + FD in m && n.ring[1] + BK in m
    ensures Touches(m, LinkPast(m, n.ring[|n.ring| - 1], n.ring[1]), f, ms, Addrs(n), TreeBinAt(ms, i),
        TreeBinAt(ms, i))
  {
    var b, a := n.ring[|n.ring| - 1], n.ring[1];
    assert b in n.ring && a in n.ring;
    InOneChunk(f, Addrs(n), b, b + FD);
    InOneChunk(f, Addrs(n), a, a + BK);
  }

  /** After looking for a leaf: the leaf is to take over, or there was none. */
  lemma LeafHalf(m: Mem, m1: Mem, i: nat, n: Trie, par: int)
    requires n.Node? && |n.ring| == 1 && At(m, n, par, i)
    requires IsLeaf(n) ==> m1 == m
    requires !IsLeaf(n) ==> Halfway(m1, Unlinked(n, 0), n.ring[0], par, i)
    ensures Unlinked(n, 0).Empty? <==> IsLeaf(n)
    ensures NumAt(m1, n.ring[0] + INDEX, i)
  {
    assert NumAt(m, n.ring[0] + INDEX, i);
  }
}
