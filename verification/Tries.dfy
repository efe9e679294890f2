/** The tries of free chunks as values: one node for every size, its chunks in a ring, and
    subtrees split by the size bits that are consumed on the way down. */
module Tries {
  import opened Words
  import opened Rings

  datatype Trie = Empty | Node(size: nat, ring: seq<int>, left: Trie, right: Trie)

  /** Which free chunks there are, and how large: what bins are specified by. */
  type Sizing = map<int, nat>

  function Sizes(t: Trie): set<nat> {
    if t.Empty? then {} else {t.size} + Sizes(t.left) + Sizes(t.right)
  }

  function Addrs(t: Trie): set<int> {
    if t.Empty? then {} else (set p | p in t.ring) + Addrs(t.left) + Addrs(t.right)
  }

  function AddrOf(t: Trie): int {
    if t.Node? && t.ring != [] then t.ring[0] else 0
  }

  /** A trie over the `2^e` sizes from `lo` on: the next bit of a size picks the subtree, a size
      occurs in one node only, and once all bits are consumed there is nothing below. */
  ghost predicate Ok(t: Trie, lo: nat, e: nat) {
    t.Node? ==>
      && t.ring != []
      && lo <= t.size < lo + Pow2(e)
      && t.size !in Sizes(t.left) && t.size !in Sizes(t.right)
      && (e == 0 ==> t.left.Empty? && t.right.Empty?)
      && (e > 0 ==> Ok(t.left, lo, e - 1) && Ok(t.right, lo + Pow2(e - 1), e - 1))
  }

  /** Every chunk of a node is a free chunk of that node's size, and no ring has it twice. */
  ghost predicate Holds(t: Trie, f: Sizing) {
    t.Node? ==>
      && t.size >= MIN_LARGE_SIZE
      && t.ring != []
      && (forall p :: p in t.ring ==> p in f && f[p] == t.size)
      && Apart(t.ring)
      && Holds(t.left, f) && Holds(t.right, f)
  }

  lemma {:induction false} SizesInRange(t: Trie, lo: nat, e: nat, s: nat)
    requires Ok(t, lo, e) && s in Sizes(t)
    ensures lo <= s < lo + Pow2(e)
  {
    if s != t.size {
      if s in Sizes(t.left) {
        SizesInRange(t.left, lo, e - 1, s);
      } else {
        SizesInRange(t.right, lo + Pow2(e - 1), e - 1, s);
      }
    }
  }

  lemma {:induction false} AddrHasSize(t: Trie, f: Sizing, p: int)
    requires Holds(t, f) && p in Addrs(t)
    ensures p in f && f[p] in Sizes(t) && f[p] >= MIN_LARGE_SIZE
  {
    if p !in t.ring {
      if p in Addrs(t.left) {
        AddrHasSize(t.left, f, p);
      } else {
        AddrHasSize(t.right, f, p);
      }
    }
  }

  lemma {:induction false} SizeHasAddr(t: Trie, f: Sizing, s: nat) returns (p: int)
    requires Holds(t, f) && s in Sizes(t)
    ensures p in Addrs(t) && p in f && f[p] == s
  {
    if s == t.size {
      p := t.ring[0];
    } else if s in Sizes(t.left) {
      p := SizeHasAddr(t.left, f, s);
    } else {
      p := SizeHasAddr(t.right, f, s);
    }
  }

  /** The chunks of a node and of its two subtrees are different chunks. */
  lemma PartsDisjoint(t: Trie, lo: nat, e: nat, f: Sizing, p: int)
    requires t.Node? && Ok(t, lo, e) && Holds(t, f)
    ensures p in t.ring ==> p !in Addrs(t.left) && p !in Addrs(t.right)
    ensures p in Addrs(t.left) ==> p !in Addrs(t.right)
  {
    if p in Addrs(t.left) {
      AddrHasSize(t.left, f, p);
      SizesInRange(t.left, lo, e - 1, f[p]);
    }
    if p in Addrs(t.right) {
      AddrHasSize(t.right, f, p);
      SizesInRange(t.right, lo + Pow2(e - 1), e - 1, f[p]);
    }
  }

  /** All sizes of the left subtree are below all sizes of the right one. */
  lemma LeftBelowRight(t: Trie, lo: nat, e: nat, s: nat, s': nat)
    requires t.Node? && Ok(t, lo, e) && s in Sizes(t.left) && s' in Sizes(t.right)
    ensures s < s'
  {
    SizesInRange(t.left, lo, e - 1, s);
    SizesInRange(t.right, lo + Pow2(e - 1), e - 1, s');
  }

  // ----- subtrees named by the path to them -----

  function Child(t: Trie, right: bool): Trie
    requires t.Node?
  {
    if right then t.right else t.left
  }

  /** Every step of the path leaves a node. */
  predicate OnTrie(t: Trie, path: seq<bool>) {
    path != [] ==> t.Node? && OnTrie(Child(t, path[0]), path[1..])
  }

  function Sub(t: Trie, path: seq<bool>): Trie
    requires OnTrie(t, path)
  {
    if path == [] then t else Sub(Child(t, path[0]), path[1..])
  }

  /** `t` with the subtree at the end of the path replaced by `s`. */
  function Put(t: Trie, path: seq<bool>, s: Trie): Trie
    requires OnTrie(t, path)
  {
    if path == [] then s
    else if path[0] then t.(right := Put(t.right, path[1..], s))
    else t.(left := Put(t.left, path[1..], s))
  }

  /** The low end of the half of a range that the next bit selects. */
  function Half(lo: nat, e: nat, right: bool): nat
    requires e > 0
  {
    if right then lo + Pow2(e - 1) else lo
  }

  /** The low end of the range at the end of the path. */
  function LoAt(lo: nat, e: nat, path: seq<bool>): nat
    requires |path| <= e
    decreases e
  {
    if path == [] then lo else LoAt(Half(lo, e, path[0]), e - 1, path[1..])
  }

  lemma {:induction false} SubOk(t: Trie, lo: nat, e: nat, path: seq<bool>)
    requires Ok(t, lo, e) && OnTrie(t, path) && |path| <= e
    ensures Ok(Sub(t, path), LoAt(lo, e, path), e - |path|)
  {
    if path != [] {
      SubOk(Child(t, path[0]), Half(lo, e, path[0]), e - 1, path[1..]);
    }
  }

  /** A path to a node is no longer than there are bits to consume. */
  lemma {:induction false} PathBounded(t: Trie, lo: nat, e: nat, path: seq<bool>)
    requires Ok(t, lo, e) && OnTrie(t, path) && Sub(t, path).Node?
    ensures |path| <= e
  {
    if path != [] {
      PathBounded(Child(t, path[0]), Half(lo, e, path[0]), e - 1, path[1..]);
    }
  }

  lemma {:induction false} SubHolds(t: Trie, f: Sizing, path: seq<bool>)
    requires Holds(t, f) && OnTrie(t, path)
    ensures Holds(Sub(t, path), f)
    ensures Addrs(Sub(t, path)) <= Addrs(t) && Sizes(Sub(t, path)) <= Sizes(t)
  {
    if path != [] {
      SubHolds(Child(t, path[0]), f, path[1..]);
    }
  }

  lemma {:induction false} ExtendPath(t: Trie, path: seq<bool>, b: bool)
    requires OnTrie(t, path) && Sub(t, path).Node?
    ensures OnTrie(t, path + [b]) && Sub(t, path + [b]) == Child(Sub(t, path), b)
  {
    if path == [] {
      assert path + [b] == [b];
    } else {
      ExtendPath(Child(t, path[0]), path[1..], b);
      assert (path + [b])[1..] == path[1..] + [b];
    }
  }

  lemma {:induction false} ExtendLo(lo: nat, e: nat, path: seq<bool>, b: bool)
    requires |path| < e
    ensures LoAt(lo, e, path + [b]) == Half(LoAt(lo, e, path), e - |path|, b)
    decreases e
  {
    if path == [] {
      assert path + [b] == [b];
    } else {
      ExtendLo(Half(lo, e, path[0]), e - 1, path[1..], b);
      assert (path + [b])[1..] == path[1..] + [b];
    }
  }

  lemma {:induction false} PutAtEnd(t: Trie, path: seq<bool>, b: bool, s: Trie)
    requires OnTrie(t, path) && Sub(t, path).Node?
    ensures OnTrie(t, path + [b])
    ensures Put(t, path + [b], s)
         == Put(t, path, if b then Sub(t, path).(right := s) else Sub(t, path).(left := s))
  {
    if path == [] {
      assert path + [b] == [b];
    } else {
      PutAtEnd(Child(t, path[0]), path[1..], b, s);
      assert (path + [b])[1..] == path[1..] + [b];
    }
  }

  /** Every chunk of a trie sits in the ring of the node at the end of some path. */
  lemma {:induction false} PathTo(t: Trie, x: int) returns (path: seq<bool>)
    requires x in Addrs(t)
    ensures OnTrie(t, path) && Sub(t, path).Node? && x in Sub(t, path).ring
  {
    if x in t.ring {
      path := [];
    } else {
      var right := x !in Addrs(t.left);
      var rest := PathTo(Child(t, right), x);
      path := [right] + rest;
      assert path[1..] == rest;
    }
  }

  /** The new subtree may keep sizes of the old one and bring in sizes the trie did not have. */
  lemma {:induction false} PutOk(t: Trie, lo: nat, e: nat, path: seq<bool>, s: Trie)
    requires Ok(t, lo, e) && OnTrie(t, path) && |path| <= e
    requires Ok(s, LoAt(lo, e, path), e - |path|)
    requires forall z :: z in Sizes(s) ==> z in Sizes(Sub(t, path)) || z !in Sizes(t)
    ensures Ok(Put(t, path, s), lo, e)
    ensures forall z :: z in Sizes(Put(t, path, s)) ==> z in Sizes(s) || z in Sizes(t)
  {
    if path != [] {
      SubSizes(t, path);
      PutOk(Child(t, path[0]), Half(lo, e, path[0]), e - 1, path[1..], s);
    }
  }

  lemma {:induction false} SubSizes(t: Trie, path: seq<bool>)
    requires OnTrie(t, path)
    ensures Sizes(Sub(t, path)) <= Sizes(t)
    ensures path != [] ==> Sizes(Sub(t, path)) <= Sizes(Child(t, path[0]))
  {
    if path != [] {
      SubSizes(Child(t, path[0]), path[1..]);
    }
  }

  lemma {:induction false} PutHolds(t: Trie, lo: nat, e: nat, f: Sizing, path: seq<bool>, s: Trie, f': Sizing)
    requires Ok(t, lo, e) && Holds(t, f) && OnTrie(t, path) && |path| <= e && Holds(s, f')
    requires forall p :: p in f && p !in Addrs(Sub(t, path)) ==> p in f' && f'[p] == f[p]
    ensures Holds(Put(t, path, s), f')
  {
    if path != [] {
      SubHolds(Child(t, path[0]), f, path[1..]);
      forall p | p in t.ring || p in Addrs(Child(t, !path[0])) ensures p !in Addrs(Sub(t, path)) {
        PartsDisjoint(t, lo, e, f, p);
      }
      HoldsKept(Child(t, !path[0]), f, f');
      PutHolds(Child(t, path[0]), Half(lo, e, path[0]), e - 1, f, path[1..], s, f');
    }
  }

  lemma {:induction false} HoldsKept(t: Trie, f: Sizing, f': Sizing)
    requires Holds(t, f)
    requires forall p :: p in Addrs(t) && p in f ==> p in f' && f'[p] == f[p]
    ensures Holds(t, f')
  {
    if t.Node? {
      HoldsKept(t.left, f, f');
      HoldsKept(t.right, f, f');
    }
  }

  lemma OffPath(t: Trie, lo: nat, e: nat, f: Sizing, path: seq<bool>, p: int)
    requires Ok(t, lo, e) && Holds(t, f) && OnTrie(t, path) && path != []
    requires p in t.ring || p in Addrs(Child(t, !path[0]))
    ensures p in Addrs(t) && p !in Addrs(Sub(t, path))
  {
    SubHolds(Child(t, path[0]), f, path[1..]);
    PartsDisjoint(t, lo, e, f, p);
  }

  lemma {:induction false} PutAddrs(t: Trie, lo: nat, e: nat, f: Sizing, path: seq<bool>, s: Trie, p: int)
    requires Ok(t, lo, e) && Holds(t, f) && OnTrie(t, path) && |path| <= e
    ensures p in Addrs(Put(t, path, s)) <==> (p in Addrs(t) && p !in Addrs(Sub(t, path))) || p in Addrs(s)
  {
    if path != [] {
      var c := Child(t, path[0]);
      PutAddrs(c, Half(lo, e, path[0]), e - 1, f, path[1..], s, p);
      SubHolds(c, f, path[1..]);
      PartsDisjoint(t, lo, e, f, p);
    }
  }

  /** Putting back a subtree that has gained the chunk `x`, of a size the trie did not have elsewhere. */
  lemma PutGains(t: Trie, lo: nat, e: nat, f: Sizing, path: seq<bool>, s: Trie, g: Sizing, x: int)
    requires Ok(t, lo, e) && Holds(t, f) && OnTrie(t, path) && |path| <= e
    requires Ok(s, LoAt(lo, e, path), e - |path|) && Holds(s, g)
    requires forall z :: z in Sizes(s) ==> z in Sizes(Sub(t, path)) || z !in Sizes(t)
    requires forall p :: p in Addrs(s) <==> p in Addrs(Sub(t, path)) || p == x
    requires forall q :: q in f ==> q in g && g[q] == f[q]
    ensures Ok(Put(t, path, s), lo, e) && Holds(Put(t, path, s), g)
    ensures forall p :: p in Addrs(Put(t, path, s)) <==> p in Addrs(t) || p == x
    ensures forall z :: z in Sizes(Put(t, path, s)) ==> z in Sizes(t) || z in Sizes(s)
  {
    PutOk(t, lo, e, path, s);
    PutHolds(t, lo, e, f, path, s, g);
    SubHolds(t, f, path);
    forall p ensures p in Addrs(Put(t, path, s)) <==> p in Addrs(t) || p == x {
      PutAddrs(t, lo, e, f, path, s, p);
    }
  }

  /** Putting back a subtree that has lost the chunk `x`. */
  lemma PutLoses(t: Trie, lo: nat, e: nat, f: Sizing, path: seq<bool>, s: Trie, g: Sizing, x: int)
    requires Ok(t, lo, e) && Holds(t, f) && OnTrie(t, path) && |path| <= e
    requires Ok(s, LoAt(lo, e, path), e - |path|) && Holds(s, g)
    requires Sizes(s) <= Sizes(Sub(t, path))
    requires x in Addrs(Sub(t, path)) && forall p :: p in Addrs(s) <==> p in Addrs(Sub(t, path)) && p != x
    requires forall q :: q in f && q != x ==> q in g && g[q] == f[q]
    ensures Ok(Put(t, path, s), lo, e) && Holds(Put(t, path, s), g)
    ensures forall p :: p in Addrs(Put(t, path, s)) <==> p in Addrs(t) && p != x
    ensures Sizes(Put(t, path, s)) <= Sizes(t)
  {
    PutOk(t, lo, e, path, s);
    PutHolds(t, lo, e, f, path, s, g);
    SubHolds(t, f, path);
    forall p ensures p in Addrs(Put(t, path, s)) <==> p in Addrs(t) && p != x {
      PutAddrs(t, lo, e, f, path, s, p);
    }
  }

  function WithChild(t: Trie, right: bool, s: Trie): Trie
    requires t.Node?
  {
    if right then t.(right := s) else t.(left := s)
  }

  function Single(x: int, s: nat): Trie { Node(s, [x], Empty, Empty) }

  /** Hanging a new size below a node that has no child there. */
  lemma NodeGains(n: Trie, lo: nat, e: nat, f: Sizing, g: Sizing, b: bool, x: int)
    requires n.Node? && e > 0 && Ok(n, lo, e) && Holds(n, f) && Child(n, b).Empty?
    requires x in g && g[x] >= MIN_LARGE_SIZE && g[x] !in Sizes(n) && forall q :: q in f ==> q in g && g[q] == f[q]
    requires Half(lo, e, b) <= g[x] < Half(lo, e, b) + Pow2(e - 1)
    ensures var n' := WithChild(n, b, Single(x, g[x]));
      && Ok(n', lo, e) && Holds(n', g)
      && (forall p :: p in Addrs(n') <==> p in Addrs(n) || p == x)
      && (forall z :: z in Sizes(n') <==> z in Sizes(n) || z == g[x])
  {
    HoldsKept(n, f, g);
    SingleOk(x, g[x], Half(lo, e, b), e - 1);
    assert Apart([x]);
  }

  lemma SingleOk(x: int, s: nat, lo: nat, e: nat)
    requires lo <= s < lo + Pow2(e)
    ensures Ok(Single(x, s), lo, e)
  {
    if e > 0 {
      assert Ok(Empty, lo, e - 1) && Ok(Empty, lo + Pow2(e - 1), e - 1);
    }
  }

  /** Chaining another chunk of the same size into the ring of a node. */
  lemma RingGains(n: Trie, lo: nat, e: nat, f: Sizing, g: Sizing, x: int)
    requires n.Node? && Ok(n, lo, e) && Holds(n, f)
    requires x in g && g[x] == n.size && Apart(InsertedSecond(n.ring, x))
    requires forall q :: q in f ==> q in g && g[q] == f[q]
    ensures var n' := n.(ring := InsertedSecond(n.ring, x));
      && Ok(n', lo, e) && Holds(n', g) && Sizes(n') == Sizes(n)
      && (forall p :: p in Addrs(n') <==> p in Addrs(n) || p == x)
  {
    HoldsKept(n, f, g);
    var c := InsertedSecond(n.ring, x);
    assert forall p :: p in c <==> p in n.ring || p == x by {
      assert n.ring == [n.ring[0]] + n.ring[1..];
    }
  }

  // ----- removal -----

  /** The leaf that replaces a removed node: right children first, left ones where there is no right. */
  function Leaf(t: Trie): (l: Trie)
    requires t.Node?
    ensures l.Node? && l.left.Empty? && l.right.Empty?
  {
    if t.right.Node? then Leaf(t.right) else if t.left.Node? then Leaf(t.left) else t
  }

  function DropLeaf(t: Trie): Trie
    requires t.Node?
  {
    if t.right.Node? then t.(right := DropLeaf(t.right))
    else if t.left.Node? then t.(left := DropLeaf(t.left))
    else Empty
  }

  predicate IsLeaf(t: Trie) { t.Node? && t.left.Empty? && t.right.Empty? }

  /** What `unlink_large_chunk` turns the node into whose ring has the chunk at position `k`. */
  function Unlinked(t: Trie, k: nat): Trie
    requires t.Node? && k < |t.ring|
  {
    if |t.ring| > 1 then
      t.(ring := UnlinkedFrom(t.ring, k))
    else if IsLeaf(t) then Empty
    else Node(Leaf(t).size, Leaf(t).ring, DropLeaf(t).left, DropLeaf(t).right)
  }

  lemma {:induction false} DropLeafOk(t: Trie, lo: nat, e: nat, f: Sizing)
    requires t.Node? && Ok(t, lo, e) && Holds(t, f)
    ensures Ok(DropLeaf(t), lo, e) && Holds(DropLeaf(t), f)
    ensures Sizes(DropLeaf(t)) == Sizes(t) - {Leaf(t).size} && Leaf(t).size in Sizes(t)
    ensures Holds(Leaf(t), f) && (forall p :: p in Leaf(t).ring ==> p in Addrs(t))
    ensures lo <= Leaf(t).size < lo + Pow2(e)
  {
    if !IsLeaf(t) {
      var right := t.right.Node?;
      DropLeafOk(Child(t, right), Half(lo, e, right), e - 1, f);
      LeafElsewhere(t, lo, e, f, right);
    }
  }

  lemma {:induction false} DropLeafAddrs(t: Trie, lo: nat, e: nat, f: Sizing, p: int)
    requires t.Node? && Ok(t, lo, e) && Holds(t, f)
    ensures p in Addrs(DropLeaf(t)) <==> p in Addrs(t) && p !in Leaf(t).ring
  {
    if !IsLeaf(t) {
      var right := t.right.Node?;
      DropLeafOk(Child(t, right), Half(lo, e, right), e - 1, f);
      DropLeafAddrs(Child(t, right), Half(lo, e, right), e - 1, f, p);
      LeafElsewhere(t, lo, e, f, right);
    }
  }

  lemma LeafElsewhere(t: Trie, lo: nat, e: nat, f: Sizing, right: bool)
    requires t.Node? && Ok(t, lo, e) && Holds(t, f) && Child(t, right).Node?
    requires Leaf(Child(t, right)).size in Sizes(Child(t, right))
    requires forall p :: p in Leaf(Child(t, right)).ring ==> p in Addrs(Child(t, right))
    ensures Leaf(Child(t, right)).size !in Sizes(Child(t, !right)) && Leaf(Child(t, right)).size != t.size
    ensures forall p :: p in Leaf(Child(t, right)).ring ==> p !in t.ring && p !in Addrs(Child(t, !right))
  {
    var z := Leaf(Child(t, right)).size;
    if z in Sizes(t.left) && z in Sizes(t.right) {
      SizesInRange(t.left, lo, e - 1, z);
      SizesInRange(t.right, lo + Pow2(e - 1), e - 1, z);
    }
    forall p | p in Leaf(Child(t, right)).ring ensures p !in t.ring && p !in Addrs(Child(t, !right)) {
      PartsDisjoint(t, lo, e, f, p);
    }
  }

  /** Unlinking takes exactly that chunk out and leaves a trie over the same range. */
  lemma RingUnlinkedOk(t: Trie, lo: nat, e: nat, f: Sizing, k: nat)
    requires t.Node? && k < |t.ring| && |t.ring| > 1 && Ok(t, lo, e) && Holds(t, f)
    ensures Ok(Unlinked(t, k), lo, e) && Holds(Unlinked(t, k), f)
    ensures Sizes(Unlinked(t, k)) <= Sizes(t)
  {
    hide IsLeaf, Leaf, DropLeaf;
    UnlinkedRing(t.ring, k);
  }

  lemma LeafMovedOk(t: Trie, lo: nat, e: nat, f: Sizing, k: nat)
    requires t.Node? && k < |t.ring| && |t.ring| == 1 && !IsLeaf(t) && Ok(t, lo, e) && Holds(t, f)
    ensures Ok(Unlinked(t, k), lo, e) && Holds(Unlinked(t, k), f)
    ensures Sizes(Unlinked(t, k)) <= Sizes(t)
  {
    DropLeafOk(t, lo, e, f);
    var right := t.right.Node?;
    DropLeafOk(Child(t, right), Half(lo, e, right), e - 1, f);
    LeafElsewhere(t, lo, e, f, right);
  }

  lemma UnlinkedOk(t: Trie, lo: nat, e: nat, f: Sizing, k: nat)
    requires t.Node? && k < |t.ring| && Ok(t, lo, e) && Holds(t, f)
    ensures Ok(Unlinked(t, k), lo, e) && Holds(Unlinked(t, k), f)
    ensures Sizes(Unlinked(t, k)) <= Sizes(t)
  {
    if |t.ring| > 1 {
      RingUnlinkedOk(t, lo, e, f, k);
    } else if !IsLeaf(t) {
      LeafMovedOk(t, lo, e, f, k);
    }
  }

  lemma UnlinkedAddrs(t: Trie, lo: nat, e: nat, f: Sizing, k: nat, p: int)
    requires t.Node? && k < |t.ring| && Ok(t, lo, e) && Holds(t, f)
    ensures p in Addrs(Unlinked(t, k)) <==> p in Addrs(t) && p != t.ring[k]
  {
    if |t.ring| > 1 {
      PartsDisjoint(t, lo, e, f, p);
      UnlinkedRing(t.ring, k);
    } else if !IsLeaf(t) {
      ReplacedAddrs(t, lo, e, f, p);
    }
  }

  lemma ReplacedAddrs(t: Trie, lo: nat, e: nat, f: Sizing, p: int)
    requires t.Node? && |t.ring| == 1 && !IsLeaf(t) && Ok(t, lo, e) && Holds(t, f)
    ensures p in Addrs(Unlinked(t, 0)) <==> p in Addrs(t) && p != t.ring[0]
  {
    PartsDisjoint(t, lo, e, f, t.ring[0]);
    assert forall q :: q in t.ring <==> q == t.ring[0];
    var right := t.right.Node?;
    var c := Child(t, right);
    DropLeafOk(c, Half(lo, e, right), e - 1, f);
    DropLeafAddrs(c, Half(lo, e, right), e - 1, f, p);
    var l, d := Leaf(c), DropLeaf(c);
    if right {
      assert Unlinked(t, 0) == Node(l.size, l.ring, t.left, d);
    } else {
      assert Unlinked(t, 0) == Node(l.size, l.ring, d, t.right);
    }
  }

  /** Where each element of the ring after unlinking position `k` was before. */
  function WasAt(c: seq<int>, k: nat, i: nat): nat
    requires |c| > 1 && k < |c| && i < |c| - 1
  {
    if k == 0 then (if i == 0 then |c| - 1 else i) else if i < k then i else i + 1
  }

  function UnlinkedFrom(c: seq<int>, k: nat): (d: seq<int>)
    requires |c| > 1 && k < |c|
    ensures |d| == |c| - 1 && forall i :: 0 <= i < |d| ==> d[i] == c[WasAt(c, k, i)]
  {
    if k == 0 then Without(Rotated(c), 1) else Without(c, k)
  }

  lemma UnlinkedRing(c: seq<int>, k: nat)
    requires |c| > 1 && k < |c| && Apart(c)
    ensures Apart(UnlinkedFrom(c, k))
    ensures forall p :: p in UnlinkedFrom(c, k) <==> p in c && p != c[k]
  {
    var d := UnlinkedFrom(c, k);
    forall p | p in c && p != c[k] ensures p in d {
      var j :| 0 <= j < |c| && c[j] == p;
      var i := if k == 0 then (if j == |c| - 1 then 0 else j) else if j < k then j else j - 1;
      assert WasAt(c, k, i) == j;
    }
    forall i | 0 <= i < |d| ensures d[i] in c && d[i] != c[k] {
      assert WasAt(c, k, i) != k;
    }
  }
}
