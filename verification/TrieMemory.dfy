/** How tries lie in memory, and what a change of memory does to them. */
module TrieMemory {
  import opened Words
  import opened Rings
  import opened Tries

  function ChildWord(p: int, right: bool): int { if right then p + CHILD1 else p + CHILD0 }

  /** A chunk chained behind the first one of its size: no parent, no children. */
  ghost predicate Chained(m: Mem, p: int) {
    NumAt(m, p + PARENT, 0) && NumAt(m, p + CHILD0, 0) && NumAt(m, p + CHILD1, 0)
  }

  /** The ring of a node, whose first chunk alone is in the tree, below `par` and in bin `idx`. */
  ghost predicate RingAt(m: Mem, ring: seq<int>, par: int, idx: int) {
    && ring != [] && ring[0] > 0
    && Ring(m, ring)
    && NumAt(m, ring[0] + PARENT, par)
    && (forall k :: 0 < k < |ring| ==> Chained(m, ring[k]))
    && (forall k :: 0 <= k < |ring| ==> NumAt(m, ring[k] + INDEX, idx))
  }

  /** The trie lies in memory below the parent word value `par`. */
  ghost predicate At(m: Mem, t: Trie, par: int, idx: int) {
    t.Node? ==>
      && RingAt(m, t.ring, par, idx)
      && NumAt(m, t.ring[0] + CHILD0, AddrOf(t.left))
      && NumAt(m, t.ring[0] + CHILD1, AddrOf(t.right))
      && At(m, t.left, t.ring[0], idx)
      && At(m, t.right, t.ring[0], idx)
  }

  /** A null pointer says that there is no subtree. */
  lemma NullIsEmpty(m: Mem, t: Trie, par: int, idx: int)
    requires At(m, t, par, idx)
    ensures AddrOf(t) == 0 <==> t.Empty?
    ensures AddrOf(t) >= 0
  {}

  /** The six link words of a tree chunk are the same. */
  ghost predicate SameNode(m: Mem, m': Mem, p: int) {
    && SameLinks(m, m', p)
    && SameWord(m, m', p + CHILD0) && SameWord(m, m', p + CHILD1)
    && SameWord(m, m', p + PARENT) && SameWord(m, m', p + INDEX)
  }

  lemma RingAtKept(m: Mem, m': Mem, ring: seq<int>, par: int, idx: int)
    requires RingAt(m, ring, par, idx)
    requires forall k :: 0 <= k < |ring| ==>
      SameLinks(m, m', ring[k]) && SameWord(m, m', ring[k] + PARENT) && SameWord(m, m', ring[k] + INDEX)
    requires forall k :: 0 < k < |ring| ==> SameNode(m, m', ring[k])
    ensures RingAt(m', ring, par, idx)
  {
    RingKept(m, m', ring);
    forall k | 0 < k < |ring| ensures Chained(m', ring[k]) {
      assert Chained(m, ring[k]) && SameNode(m, m', ring[k]);
    }
    forall k | 0 <= k < |ring| ensures NumAt(m', ring[k] + INDEX, idx) {
      assert NumAt(m, ring[k] + INDEX, idx) && SameWord(m, m', ring[k] + INDEX);
    }
    assert SameWord(m, m', ring[0] + PARENT);
  }

  /** Words outside the chunks of a trie do not matter to it. */
  lemma {:induction false} AtKept(m: Mem, m': Mem, t: Trie, par: int, idx: int)
    requires At(m, t, par, idx)
    requires forall p :: p in Addrs(t) ==> SameNode(m, m', p)
    ensures At(m', t, par, idx)
  {
    if t.Node? {
      forall k | 0 <= k < |t.ring| ensures SameNode(m, m', t.ring[k]) {
        assert t.ring[k] in Addrs(t);
      }
      RingAtKept(m, m', t.ring, par, idx);
      AtKept(m, m', t.left, t.ring[0], idx);
      AtKept(m, m', t.right, t.ring[0], idx);
    }
  }

  /** The value of the parent word at the end of the path. */
  function ParentAt(t: Trie, path: seq<bool>, par: int): int
    requires OnTrie(t, path)
  {
    if path == [] then par else ParentAt(Child(t, path[0]), path[1..], AddrOf(t))
  }

  lemma {:induction false} AtSub(m: Mem, t: Trie, par: int, idx: int, path: seq<bool>)
    requires At(m, t, par, idx) && OnTrie(t, path)
    ensures At(m, Sub(t, path), ParentAt(t, path, par), idx)
  {
    if path != [] {
      AtSub(m, Child(t, path[0]), AddrOf(t), idx, path[1..]);
    }
  }

  /** Changing what lies at the end of a path, while its top chunk stays where it was. */
  lemma {:induction false} AtPut(m: Mem, m': Mem, t: Trie, lo: nat, e: nat, f: Sizing,
                                 par: int, idx: int, path: seq<bool>, s: Trie)
    requires At(m, t, par, idx) && Ok(t, lo, e) && Holds(t, f)
    requires OnTrie(t, path) && |path| <= e
    requires At(m', s, ParentAt(t, path, par), idx) && AddrOf(s) == AddrOf(Sub(t, path))
    requires forall p :: p in Addrs(t) && p !in Addrs(Sub(t, path)) ==> SameNode(m, m', p)
    ensures At(m', Put(t, path, s), par, idx)
    ensures AddrOf(Put(t, path, s)) == AddrOf(t)
  {
    if path != [] {
      forall p | p in t.ring || p in Addrs(Child(t, !path[0])) ensures SameNode(m, m', p) {
        OffPath(t, lo, e, f, path, p);
      }
      OffPathKept(m, m', t, par, idx, path[0]);
      AtPut(m, m', Child(t, path[0]), Half(lo, e, path[0]), e - 1, f, AddrOf(t), idx, path[1..], s);
    }
  }

  lemma OffPathKept(m: Mem, m': Mem, t: Trie, par: int, idx: int, right: bool)
    requires t.Node? && At(m, t, par, idx)
    requires forall p :: p in t.ring || p in Addrs(Child(t, !right)) ==> SameNode(m, m', p)
    ensures RingAt(m', t.ring, par, idx) && At(m', Child(t, !right), t.ring[0], idx)
    ensures NumAt(m', ChildWord(t.ring[0], !right), AddrOf(Child(t, !right)))
    ensures NumAt(m', ChildWord(t.ring[0], right), AddrOf(Child(t, right)))
  {
    forall k | 0 <= k < |t.ring| ensures SameNode(m, m', t.ring[k]) {
      assert t.ring[k] in t.ring;
    }
    RingAtKept(m, m', t.ring, par, idx);
    AtKept(m, m', Child(t, !right), t.ring[0], idx);
  }

  /** Hanging another subtree below a node, by one write to its child word. */
  lemma AtWithChild(m: Mem, m': Mem, t: Trie, lo: nat, e: nat, f: Sizing, par: int, idx: int, right: bool, s: Trie)
    requires t.Node? && At(m, t, par, idx) && Ok(t, lo, e) && Holds(t, f)
    requires At(m', s, t.ring[0], idx) && NumAt(m', ChildWord(t.ring[0], right), AddrOf(s))
    requires forall p :: p in Addrs(t) && p !in Addrs(Child(t, right)) && p != t.ring[0] ==> SameNode(m, m', p)
    requires SameLinks(m, m', t.ring[0]) && SameWord(m, m', t.ring[0] + PARENT) && SameWord(m, m', t.ring[0] + INDEX)
    requires SameWord(m, m', ChildWord(t.ring[0], !right))
    ensures At(m', WithChild(t, right, s), par, idx)
  {
    forall k | 0 <= k < |t.ring|
      ensures k > 0 ==> SameNode(m, m', t.ring[k])
    {
      PartsDisjoint(t, lo, e, f, t.ring[k]);
    }
    RingAtKept(m, m', t.ring, par, idx);
    forall p | p in Addrs(Child(t, !right)) ensures SameNode(m, m', p) {
      PartsDisjoint(t, lo, e, f, p);
    }
    AtKept(m, m', Child(t, !right), t.ring[0], idx);
  }

  /** Giving the top chunk of a trie another parent. */
  lemma Reparent(m: Mem, m': Mem, t: Trie, lo: nat, e: nat, f: Sizing, par: int, par': int, idx: int)
    requires t.Node? && At(m, t, par, idx) && Ok(t, lo, e) && Holds(t, f)
    requires forall p :: p in Addrs(t) && p != t.ring[0] ==> SameNode(m, m', p)
    requires SameLinks(m, m', t.ring[0]) && SameWord(m, m', t.ring[0] + CHILD0) && SameWord(m, m', t.ring[0] + CHILD1)
    requires SameWord(m, m', t.ring[0] + INDEX) && NumAt(m', t.ring[0] + PARENT, par')
    ensures At(m', t, par', idx)
  {
    forall k | 0 <= k < |t.ring|
      ensures SameLinks(m, m', t.ring[k]) && SameWord(m, m', t.ring[k] + INDEX)
      ensures k > 0 ==> SameNode(m, m', t.ring[k])
    {
      assert k > 0 ==> t.ring[k] != t.ring[0];
      assert t.ring[k] in Addrs(t);
    }
    RingKept(m, m', t.ring);
    forall k | 0 < k < |t.ring| ensures Chained(m', t.ring[k]) {
      assert Chained(m, t.ring[k]) && SameNode(m, m', t.ring[k]);
    }
    forall k | 0 <= k < |t.ring| ensures NumAt(m', t.ring[k] + INDEX, idx) {
      assert NumAt(m, t.ring[k] + INDEX, idx) && SameWord(m, m', t.ring[k] + INDEX);
    }
    forall p | p in Addrs(t.left) || p in Addrs(t.right) ensures SameNode(m, m', p) {
      PartsDisjoint(t, lo, e, f, p);
      assert t.ring[0] in t.ring;
    }
    AtKept(m, m', t.left, t.ring[0], idx);
    AtKept(m, m', t.right, t.ring[0], idx);
  }

  /** Free chunks do not overlap. */
  ghost predicate NoOverlap(f: Sizing) {
    forall p: int, q: int :: p in f && q in f && p != q ==> p + f[p] <= q || q + f[q] <= p
  }
}
