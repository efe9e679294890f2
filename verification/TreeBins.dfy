/** Linking chunks into tree bins. */
module TreeBins {
  import opened Words
  import opened BinMap
  import opened TreeIndex
  import opened Rings
  import opened Tries
  import opened TrieMemory
  import opened Bins

  /** The words `insert_large_chunk` always writes in the new chunk: its bin index, no children. */
  function Prepared(m: Mem, x: int, i: nat): Mem
    requires x + INDEX in m && x + CHILD0 in m && x + CHILD1 in m
  {
    Store(Store(Store(m, x + INDEX, Data(i)), x + CHILD1, Data(0)), x + CHILD0, Data(0))
  }

  /** Making the new chunk the only one of its size, pointed to by `slot`. */
  function Hung(m: Mem, slot: int, x: int, par: int): Mem
    requires slot in m && x + PARENT in m && x + FD in m && x + BK in m
  {
    Store(Store(Store(Store(m, slot, Data(x)), x + PARENT, Data(par)), x + BK, Data(x)), x + FD, Data(x))
  }

  /** Chaining the new chunk behind `t`, the first one of the same size. */
  function ChainedBehind(m: Mem, t: int, f: int, x: int): Mem
    requires t + FD in m && f + BK in m && x + FD in m && x + BK in m && x + PARENT in m
  {
    Store(LinkBetween(m, t, x, f), x + PARENT, Data(0))
  }

  /** The new chunk is linked in as a tree of one node. */
  lemma SingleAt(m: Mem, x: int, s: nat, par: int, idx: nat)
    requires x > 0 && NumAt(m, x + FD, x) && NumAt(m, x + BK, x) && NumAt(m, x + PARENT, par)
    requires NumAt(m, x + CHILD0, 0) && NumAt(m, x + CHILD1, 0) && NumAt(m, x + INDEX, idx)
    ensures At(m, Single(x, s), par, idx)
  {
    var c := [x];
    forall k | 0 <= k < |c| ensures Link(m, c[k], c[After(c, k)]) {}
  }

  /** A node of the one size that is left once all bits are consumed has that size. */
  lemma LastBit(t: Trie, lo: nat, s: nat)
    requires t.Node? && Ok(t, lo, 0) && lo <= s < lo + Pow2(0)
    ensures t.size == s
  {}

  /** Where an insertion or an exact search for size `s` has got to: if the trie has a node of size `s`
      at all, it has it below the current one. */
  ghost predicate Walking(t: Trie, lo: nat, e: nat, path: seq<bool>, key: nat, s: nat) {
    && OnTrie(t, path) && |path| <= e <= 64
    && Key(key, s, LoAt(lo, e, path), e - |path|)
    && (s in Sizes(t) ==> s in Sizes(Sub(t, path)))
  }

  /** One step of the walk: the top bit of the key picks the child, and the walk gets one bit longer. */
  lemma WalkOn(t: Trie, lo: nat, e: nat, path: seq<bool>, key: nat, s: nat)
    requires Ok(t, lo, e) && Walking(t, lo, e, path, key, s) && Sub(t, path).Node? && Sub(t, path).size != s
    ensures |path| < e && key < TWO64
    ensures key / 0x8000_0000_0000_0000 == 0 || key / 0x8000_0000_0000_0000 == 1
    ensures var b := key / 0x8000_0000_0000_0000 == 1;
      && OnTrie(t, path + [b]) && Sub(t, path + [b]) == Child(Sub(t, path), b)
      && Walking(t, lo, e, path + [b], key * 2 % TWO64, s)
  {
    MoreBits(t, lo, e, path, s);
    KeyOn(lo, e, path, key, s);
    var b := key / 0x8000_0000_0000_0000 == 1;
    ExtendPath(t, path, b);
    SubOk(t, lo, e, path);
    SizeBelow(Sub(t, path), LoAt(lo, e, path), e - |path|, s, b);
  }

  lemma MoreBits(t: Trie, lo: nat, e: nat, path: seq<bool>, s: nat)
    requires Ok(t, lo, e) && OnTrie(t, path) && |path| <= e && Sub(t, path).Node? && Sub(t, path).size != s
    requires LoAt(lo, e, path) <= s < LoAt(lo, e, path) + Pow2(e - |path|)
    ensures |path| < e
  {
    SubOk(t, lo, e, path);
    var n, l := Sub(t, path), LoAt(lo, e, path);
    if |path| == e {
      LastBit(n, l, s);
    }
  }

  lemma KeyOn(lo: nat, e: nat, path: seq<bool>, key: nat, s: nat)
    requires |path| < e && Key(key, s, LoAt(lo, e, path), e - |path|)
    ensures key < TWO64 && (key / 0x8000_0000_0000_0000 == 0 || key / 0x8000_0000_0000_0000 == 1)
    ensures var b := key / 0x8000_0000_0000_0000 == 1;
      && (b <==> s >= LoAt(lo, e, path) + Pow2(e - |path| - 1))
      && Key(key * 2 % TWO64, s, LoAt(lo, e, path + [b]), e - |path| - 1)
  {
    NextKey(key, s, LoAt(lo, e, path), e - |path|);
    ExtendLo(lo, e, path, key / 0x8000_0000_0000_0000 == 1);
  }

  /** A size other than the node's own is in the half that its next bit says. */
  lemma SizeBelow(n: Trie, lo: nat, e: nat, s: nat, b: bool)
    requires n.Node? && Ok(n, lo, e) && e > 0 && n.size != s && (b <==> s >= lo + Pow2(e - 1))
    ensures s in Sizes(n) ==> s in Sizes(Child(n, b))
  {
    if s in Sizes(Child(n, !b)) {
      SizesInRange(Child(n, !b), Half(lo, e, !b), e - 1, s);
    }
  }

  /** The walk starts at the root with all bits of the bin still to consume. */
  lemma WalkStart(t: Trie, s: nat, i: nat)
    requires InBin(s, i) && s < TWO64
    ensures Walking(t, BinLo(i), BinBits(i), [], s * Pow2(LeftShift(i)) % TWO64, s)
  {
    FirstKey(s, i);
  }

  // ----- the three ways an insertion ends -----

  /** The trie with a new size hung below the node at the end of the path. */
  function PutBelow(t: Trie, path: seq<bool>, b: bool, x: int, s: nat): Trie
    requires OnTrie(t, path) && Sub(t, path).Node?
  {
    Put(t, path, WithChild(Sub(t, path), b, Single(x, s)))
  }

  /** The trie with a chunk more in the ring of the node at the end of the path. */
  function PutInRing(t: Trie, path: seq<bool>, x: int): Trie
    requires OnTrie(t, path) && Sub(t, path).Node? && Sub(t, path).ring != []
  {
    Put(t, path, Sub(t, path).(ring := InsertedSecond(Sub(t, path).ring, x)))
  }

  /** What every insertion needs to know about the chunks: the tree is there, and `x` is a new chunk. */
  ghost predicate Inserting(m: Mem, f: Sizing, g: Sizing, ms: int, i: nat, t: Trie, x: int) {
    && i < NTREEBINS && Chunks(m, g, ms) && TreeOk(m, f, ms, i, t, t.Node?)
    && x in g && x !in f && !IsSmall(g[x]) && InBin(g[x], i) && ComputeTreeIndex(g[x]) == i
    && (forall q :: q in f ==> q in g && g[q] == f[q])
    && NumAt(m, x + CHILD0, 0) && NumAt(m, x + CHILD1, 0) && NumAt(m, x + INDEX, i)
  }

  lemma RootTouches(m: Mem, f: Sizing, g: Sizing, ms: int, i: nat, x: int)
    requires Inserting(m, f, g, ms, i, Empty, x)
    requires x + PARENT in m && x + FD in m && x + BK in m
    ensures var h := TreeBinAt(ms, i); Touches(m, Hung(m, h, x, h), g, ms, {x}, h, h + 8)
  {
    hide TreeOk, At, Ok, Holds;
    ChunkFacts(m, g, ms, x);
    RootWords(m, TreeBinAt(ms, i), x);
  }

  lemma RootAt(m: Mem, h: int, x: int, s: nat, i: nat)
    requires h in m && x + PARENT in m && x + FD in m && x + BK in m && (h < x || x + 64 <= h) && x > 0
    requires NumAt(m, x + CHILD0, 0) && NumAt(m, x + CHILD1, 0) && NumAt(m, x + INDEX, i)
    ensures At(Hung(m, h, x, h), Single(x, s), h, i) && NumAt(Hung(m, h, x, h), h, x)
  {
    hide At, Single;
    RootWords(m, h, x);
    SingleAt(Hung(m, h, x, h), x, s, h, i);
  }

  lemma SingleHolds(g: Sizing, x: int)
    requires x in g && !IsSmall(g[x]) && g[x] % 16 == 0 && x > 0
    ensures Holds(Single(x, g[x]), g) && AddrOf(Single(x, g[x])) == x
  {}

  lemma InsertRoot(m: Mem, f: Sizing, g: Sizing, ms: int, i: nat, x: int)
    requires Inserting(m, f, g, ms, i, Empty, x)
    requires x + PARENT in m && x + FD in m && x + BK in m
    ensures TreeOk(Hung(m, TreeBinAt(ms, i), x, TreeBinAt(ms, i)), g, ms, i, Single(x, g[x]), true)
    ensures var h := TreeBinAt(ms, i); Touches(m, Hung(m, h, x, h), g, ms, {x}, h, h + 8)
  {
    hide Touches, At, Ok, Holds, Hung;
    RootTouches(m, f, g, ms, i, x);
    ChunkFacts(m, g, ms, x);
    RootTrie(g[x], i, x);
    RootAt(m, TreeBinAt(ms, i), x, g[x], i);
    SingleHolds(g, x);
  }

  lemma RootTrie(s: nat, i: nat, x: int)
    requires InBin(s, i) && s < TWO64
    ensures Ok(Single(x, s), BinLo(i), BinBits(i)) && Sizes(Single(x, s)) == {s}
  {
    BinRange(s, i);
    SingleOk(x, s, BinLo(i), BinBits(i));
  }

  lemma RootWords(m: Mem, h: int, x: int)
    requires h in m && x + PARENT in m && x + FD in m && x + BK in m && (h < x || x + 64 <= h)
    ensures var m' := Hung(m, h, x, h);
      && NumAt(m', h, x) && NumAt(m', x + FD, x) && NumAt(m', x + BK, x) && NumAt(m', x + PARENT, h)
      && SameWord(m, m', x + CHILD0) && SameWord(m, m', x + CHILD1) && SameWord(m, m', x + INDEX)
  {}

  /** Everything in the tree but the two chunks written to is untouched. */
  lemma TreeUntouched(m: Mem, m': Mem, f: Sizing, g: Sizing, ms: int, t: Trie, s: set<int>, lo: int, hi: int, p: int)
    requires Chunks(m, g, ms) && Holds(t, f) && Touches(m, m', g, ms, s, lo, hi)
    requires forall q :: q in f ==> q in g && g[q] == f[q]
    requires p in Addrs(t) && p !in s
    ensures SameNode(m, m', p)
  {
    AddrHasSize(t, f, p);
    UntouchedLinks(m, m', g, ms, s, lo, hi, p);
  }

  lemma HungTouches(m: Mem, g: Sizing, ms: int, i: nat, y: int, b: bool, x: int)
    requires Chunks(m, g, ms) && x in g && y in g && !IsSmall(g[x]) && !IsSmall(g[y]) && i < NTREEBINS
    requires ChildWord(y, b) in m && x + PARENT in m && x + FD in m && x + BK in m
    ensures Touches(m, Hung(m, ChildWord(y, b), x, y), g, ms, {x, y}, TreeBinAt(ms, i), TreeBinAt(ms, i))
  {
    ChunkFacts(m, g, ms, x);
    ChunkFacts(m, g, ms, y);
  }

  /** The link words of `y`, one of whose children changes. */
  ghost predicate SameButChild(m: Mem, m': Mem, y: int, b: bool) {
    && SameLinks(m, m', y) && SameWord(m, m', y + PARENT) && SameWord(m, m', y + INDEX)
    && SameWord(m, m', ChildWord(y, !b))
  }

  lemma HungWords(m: Mem, y: int, b: bool, x: int)
    requires x + 64 <= y || y + 64 <= x
    requires ChildWord(y, b) in m && x + PARENT in m && x + FD in m && x + BK in m
    ensures var m' := Hung(m, ChildWord(y, b), x, y);
      && SameButChild(m, m', y, b)
      && SameWord(m, m', x + CHILD0) && SameWord(m, m', x + CHILD1) && SameWord(m, m', x + INDEX)
      && NumAt(m', ChildWord(y, b), x) && NumAt(m', x + FD, x) && NumAt(m', x + BK, x) && NumAt(m', x + PARENT, y)
  {}

  /** Hanging the new chunk where the walk for its size found no child. */
  lemma InsertBelow(m: Mem, f: Sizing, g: Sizing, ms: int, i: nat, t: Trie, path: seq<bool>, b: bool, x: int)
    requires Inserting(m, f, g, ms, i, t, x) && t.Node?
    requires OnTrie(t, path) && |path| < BinBits(i) && Sub(t, path).Node? && Child(Sub(t, path), b).Empty?
    requires g[x] !in Sizes(t)
    requires var l := LoAt(BinLo(i), BinBits(i), path + [b]); l <= g[x] < l + Pow2(BinBits(i) - |path| - 1)
    requires x + PARENT in m && x + FD in m && x + BK in m
    requires ChildWord(AddrOf(Sub(t, path)), b) in m
    ensures var y := AddrOf(Sub(t, path));
      var m', t' := Hung(m, ChildWord(y, b), x, y), PutBelow(t, path, b, x, g[x]);
      && TreeOk(m', g, ms, i, t', true)
      && (forall p :: p in Addrs(t') <==> p in Addrs(t) || p == x)
      && y in f && !IsSmall(f[y]) && ComputeTreeIndex(f[y]) == i
      && Touches(m, m', g, ms, {x, y}, TreeBinAt(ms, i), TreeBinAt(ms, i))
  {
    InsertBelowMem(m, f, g, ms, i, t, path, b, x);
    InsertBelowTrie(f, g, i, t, path, b, x);
    ChunkFacts(m, g, ms, x);
  }

  lemma InsertBelowMem(m: Mem, f: Sizing, g: Sizing, ms: int, i: nat, t: Trie, path: seq<bool>, b: bool, x: int)
    requires Inserting(m, f, g, ms, i, t, x) && t.Node?
    requires OnTrie(t, path) && |path| < BinBits(i) && Sub(t, path).Node? && Child(Sub(t, path), b).Empty?
    requires x + PARENT in m && x + FD in m && x + BK in m
    requires ChildWord(AddrOf(Sub(t, path)), b) in m
    ensures var y := AddrOf(Sub(t, path));
      var m', t' := Hung(m, ChildWord(y, b), x, y), PutBelow(t, path, b, x, g[x]);
      && At(m', t', TreeBinAt(ms, i), i) && NumAt(m', TreeBinAt(ms, i), AddrOf(t'))
      && Touches(m, m', g, ms, {x, y}, TreeBinAt(ms, i), TreeBinAt(ms, i))
      && y in f && f[y] in Sizes(t) && !IsSmall(f[y])
  {
    var y := AddrOf(Sub(t, path));
    var m' := Hung(m, ChildWord(y, b), x, y);
    TopOfSub(t, f, path);
    HungTouches(m, g, ms, i, y, b, x);
    ChunkFacts(m, g, ms, x);
    assert x + g[x] <= y || y + g[y] <= x;
    HungWords(m, y, b, x);
    SingleAt(m', x, g[x], y, i);
    InsertBelowAt(m, m', f, g, ms, i, t, path, b, x);
    InsertBelowHeader(m, m', g, ms, i, t, x, y);
  }

  lemma InsertBelowTrie(f: Sizing, g: Sizing, i: nat, t: Trie, path: seq<bool>, b: bool, x: int)
    requires i < NTREEBINS && Ok(t, BinLo(i), BinBits(i)) && Holds(t, f)
    requires OnTrie(t, path) && |path| < BinBits(i) && Sub(t, path).Node? && Child(Sub(t, path), b).Empty?
    requires x in g && !IsSmall(g[x]) && g[x] !in Sizes(t) && forall q :: q in f ==> q in g && g[q] == f[q]
    requires var l := LoAt(BinLo(i), BinBits(i), path + [b]); l <= g[x] < l + Pow2(BinBits(i) - |path| - 1)
    ensures var t' := PutBelow(t, path, b, x, g[x]);
      && t'.Node? && Ok(t', BinLo(i), BinBits(i)) && Holds(t', g)
      && (forall p :: p in Addrs(t') <==> p in Addrs(t) || p == x)
      && (forall z :: z in Sizes(t') ==> z in Sizes(t) || z == g[x])
  {
    var lo, e := BinLo(i), BinBits(i);
    ExtendLo(lo, e, path, b);
    SubHolds(t, f, path);
    SubOk(t, lo, e, path);
    NodeGains(Sub(t, path), LoAt(lo, e, path), e - |path|, f, g, b, x);
    PutGains(t, lo, e, f, path, WithChild(Sub(t, path), b, Single(x, g[x])), g, x);
    TopOfSub(t, f, path);
  }

  lemma InsertBelowHeader(m: Mem, m': Mem, g: Sizing, ms: int, i: nat, t: Trie, x: int, y: int)
    requires i < NTREEBINS && Chunks(m, g, ms) && NumAt(m, TreeBinAt(ms, i), AddrOf(t))
    requires Touches(m, m', g, ms, {x, y}, TreeBinAt(ms, i), TreeBinAt(ms, i))
    ensures NumAt(m', TreeBinAt(ms, i), AddrOf(t))
  {
    HeaderElsewhere(m, m', g, ms, {x, y}, TreeBinAt(ms, i), TreeBinAt(ms, i), TreeBinAt(ms, i));
  }

  lemma TopOfSub(t: Trie, f: Sizing, path: seq<bool>)
    requires Holds(t, f) && OnTrie(t, path) && Sub(t, path).Node?
    ensures var y := AddrOf(Sub(t, path));
      y in Addrs(Sub(t, path)) && y in Addrs(t) && y in f && f[y] in Sizes(t) && !IsSmall(f[y])
  {
    SubHolds(t, f, path);
    AddrHasSize(t, f, AddrOf(Sub(t, path)));
  }

  /** Of a trie, a change to the new chunk and one of its nodes changes that node only. */
  lemma OnlyTouched(m: Mem, m': Mem, f: Sizing, g: Sizing, ms: int, i: nat, t: Trie, x: int, y: int)
    requires Inserting(m, f, g, ms, i, t, x)
    requires Touches(m, m', g, ms, {x, y}, TreeBinAt(ms, i), TreeBinAt(ms, i))
    ensures forall p :: p in Addrs(t) ==> p == y || SameNode(m, m', p)
  {
    var h := TreeBinAt(ms, i);
    forall p | p in Addrs(t) ensures p == y || SameNode(m, m', p) {
      AddrHasSize(t, f, p);
      if p != y { TreeUntouched(m, m', f, g, ms, t, {x, y}, h, h, p); }
    }
  }

  lemma InsertBelowAt(m: Mem, m': Mem, f: Sizing, g: Sizing, ms: int, i: nat, t: Trie, path: seq<bool>, b: bool, x: int)
    requires Inserting(m, f, g, ms, i, t, x) && t.Node?
    requires OnTrie(t, path) && |path| < BinBits(i) && Sub(t, path).Node? && Child(Sub(t, path), b).Empty?
    requires Touches(m, m', g, ms, {x, AddrOf(Sub(t, path))}, TreeBinAt(ms, i), TreeBinAt(ms, i))
    requires SameButChild(m, m', AddrOf(Sub(t, path)), b)
    requires NumAt(m', ChildWord(AddrOf(Sub(t, path)), b), x) && At(m', Single(x, g[x]), AddrOf(Sub(t, path)), i)
    ensures var t' := PutBelow(t, path, b, x, g[x]);
      At(m', t', TreeBinAt(ms, i), i) && AddrOf(t') == AddrOf(t)
  {
    var lo, e, h := BinLo(i), BinBits(i), TreeBinAt(ms, i);
    var n := Sub(t, path);
    var y := AddrOf(n);
    SubHolds(t, f, path);
    TopOfSub(t, f, path);
    OnlyTouched(m, m', f, g, ms, i, t, x, y);
    NodeGainsAt(m, m', t, lo, e, f, h, i, path, b, x, g[x]);
    AtPut(m, m', t, lo, e, f, h, i, path, WithChild(n, b, Single(x, g[x])));
  }

  lemma NodeGainsAt(m: Mem, m': Mem, t: Trie, lo: nat, e: nat, f: Sizing, h: int, i: nat, path: seq<bool>, b: bool,
      x: int, s: nat)
    requires Ok(t, lo, e) && Holds(t, f) && At(m, t, h, i)
    requires OnTrie(t, path) && |path| < e && Sub(t, path).Node? && Child(Sub(t, path), b).Empty?
    requires SameButChild(m, m', AddrOf(Sub(t, path)), b)
    requires forall p :: p in Addrs(t) ==> p == AddrOf(Sub(t, path)) || SameNode(m, m', p)
    requires NumAt(m', ChildWord(AddrOf(Sub(t, path)), b), x) && At(m', Single(x, s), AddrOf(Sub(t, path)), i)
    ensures At(m', WithChild(Sub(t, path), b, Single(x, s)), ParentAt(t, path, h), i)
  {
    SubHolds(t, f, path);
    SubOk(t, lo, e, path);
    AtSub(m, t, h, i, path);
    AtWithChild(m, m', Sub(t, path), LoAt(lo, e, path), e - |path|, f, ParentAt(t, path, h), i, b, Single(x, s));
  }

  // ----- chaining behind a chunk of the same size -----

  lemma ChainRing(m: Mem, ring: seq<int>, par: int, i: nat, x: int)
    requires RingAt(m, ring, par, i) && Apart([x] + ring) && Spread(ring, x)
    requires x + FD in m && x + BK in m && x + PARENT in m
    requires NumAt(m, x + CHILD0, 0) && NumAt(m, x + CHILD1, 0) && NumAt(m, x + INDEX, i)
    ensures ring[0] + FD in m && ring[After(ring, 0)] + BK in m
    ensures RingAt(ChainedBehind(m, ring[0], ring[After(ring, 0)], x), InsertedSecond(ring, x), par, i)
  {
    assert Link(m, ring[0], ring[After(ring, 0)]);
    var t, f := ring[0], ring[After(ring, 0)];
    var m', c := ChainedBehind(m, t, f, x), InsertedSecond(ring, x);
    ChainLinks(m, ring, x);
    forall k | 0 <= k < |c|
      ensures NumAt(m', c[k] + INDEX, i) && (k > 0 ==> Chained(m', c[k])) && (k == 0 ==> NumAt(m', c[0] + PARENT, par))
    {
      if k != 1 {
        assert c[k] == ring[if k == 0 then 0 else k - 1];
        ChainElement(m, ring, par, i, x, if k == 0 then 0 else k - 1);
      }
    }
  }

  lemma ChainElement(m: Mem, ring: seq<int>, par: int, i: nat, x: int, j: nat)
    requires RingAt(m, ring, par, i) && Spread(ring, x) && j < |ring|
    requires x + FD in m && x + BK in m && x + PARENT in m && ring[0] + FD in m && ring[After(ring, 0)] + BK in m
    ensures var m' := ChainedBehind(m, ring[0], ring[After(ring, 0)], x);
      NumAt(m', ring[j] + INDEX, i) && (j > 0 ==> Chained(m', ring[j])) && (j == 0 ==> NumAt(m', ring[0] + PARENT, par))
  {
    assert NumAt(m, ring[j] + INDEX, i);
    assert j > 0 ==> Chained(m, ring[j]);
    ChainWords(m, ring[0], ring[After(ring, 0)], x, ring[j]);
  }

  ghost predicate FarApart(p: int, q: int) { p + 64 <= q || q + 64 <= p }

  ghost predicate Spread(ring: seq<int>, x: int) {
    && (forall k :: 0 <= k < |ring| ==> FarApart(x, ring[k]))
    && (forall j, k :: 0 <= j < |ring| && 0 <= k < |ring| && j != k ==> FarApart(ring[j], ring[k]))
  }

  lemma ChainLinks(m: Mem, ring: seq<int>, x: int)
    requires ring != [] && Ring(m, ring) && Apart([x] + ring) && Spread(ring, x)
    requires x + FD in m && x + BK in m && x + PARENT in m && ring[0] + FD in m && ring[After(ring, 0)] + BK in m
    ensures Ring(ChainedBehind(m, ring[0], ring[After(ring, 0)], x), InsertedSecond(ring, x))
  {
    var m1 := LinkBetween(m, ring[0], x, ring[After(ring, 0)]);
    var m', c := ChainedBehind(m, ring[0], ring[After(ring, 0)], x), InsertedSecond(ring, x);
    InsertSecond(m, ring, x);
    forall k | 0 <= k < |c| ensures SameLinks(m1, m', c[k]) {
      assert k > 1 ==> c[k] == ring[k - 1];
    }
    RingKept(m1, m', c);
  }

  lemma ChainWords(m: Mem, t: int, f: int, x: int, q: int)
    requires t + FD in m && f + BK in m && x + FD in m && x + BK in m && x + PARENT in m
    requires FarApart(x, q) && (q == t || FarApart(q, t)) && (q == f || FarApart(q, f))
    ensures var m' := ChainedBehind(m, t, f, x);
      && SameWord(m, m', q + CHILD0) && SameWord(m, m', q + CHILD1) && SameWord(m, m', q + PARENT)
      && SameWord(m, m', q + INDEX)
  {}

  lemma ChainTouches(m: Mem, g: Sizing, ms: int, i: nat, t: int, f: int, x: int)
    requires Chunks(m, g, ms) && t in g && f in g && x in g && !IsSmall(g[t]) && !IsSmall(g[f]) && !IsSmall(g[x])
    requires i < NTREEBINS
    requires t + FD in m && f + BK in m && x + FD in m && x + BK in m && x + PARENT in m
    ensures Touches(m, ChainedBehind(m, t, f, x), g, ms, {t, f, x}, TreeBinAt(ms, i), TreeBinAt(ms, i))
  {
    ChunkFacts(m, g, ms, t);
    ChunkFacts(m, g, ms, f);
    ChunkFacts(m, g, ms, x);
  }

  /** The chunks of a ring, and a new one, lie far enough apart. */
  lemma RingSpread(m: Mem, f: Sizing, g: Sizing, ms: int, n: Trie, x: int)
    requires Chunks(m, g, ms) && n.Node? && Holds(n, f) && forall q :: q in f ==> q in g && g[q] == f[q]
    requires x in g && x !in f && !IsSmall(g[x])
    ensures Apart([x] + n.ring) && Spread(n.ring, x)
    ensures Apart(InsertedSecond(n.ring, x))
  {
    SpreadOut(g, n.ring, n.size, x, f);
    assert [n.ring[0]] + n.ring[1..] == n.ring;
    assert [n.ring[0]] + ([x] + n.ring[1..]) == InsertedSecond(n.ring, x);
    ApartSwap(x, n.ring[0], n.ring[1..]);
  }

  lemma SpreadOut(g: Sizing, c: seq<int>, s: nat, x: int, f: Sizing)
    requires NoOverlap(g) && Apart(c) && x in g && x !in f && !IsSmall(g[x]) && !IsSmall(s)
    requires forall p :: p in c ==> p in f && p in g && g[p] == s
    ensures Apart([x] + c) && Spread(c, x)
  {
    forall k | 0 <= k < |c| ensures FarApart(x, c[k]) {
      assert c[k] in c;
      Far(g, x, c[k]);
    }
    forall j, k | 0 <= j < |c| && 0 <= k < |c| && j != k ensures FarApart(c[j], c[k]) {
      assert c[j] in c && c[k] in c;
      Far(g, c[j], c[k]);
    }
  }

  lemma Far(g: Sizing, p: int, q: int)
    requires NoOverlap(g) && p in g && q in g && p != q && !IsSmall(g[p]) && !IsSmall(g[q])
    ensures FarApart(p, q)
  {}

  lemma InsertChained(m: Mem, f: Sizing, g: Sizing, ms: int, i: nat, t: Trie, path: seq<bool>, x: int)
    requires Inserting(m, f, g, ms, i, t, x) && t.Node?
    requires OnTrie(t, path) && |path| <= BinBits(i) && Sub(t, path).Node? && Sub(t, path).size == g[x]
    requires x + PARENT in m && x + FD in m && x + BK in m
    ensures var c := Sub(t, path).ring;
      && c != [] && c[0] + FD in m && c[After(c, 0)] + BK in m && NumAt(m, c[0] + FD, c[After(c, 0)])
      && c[0] in f && c[After(c, 0)] in f && f[c[0]] == g[x] && f[c[After(c, 0)]] == g[x]
      && var m', t' := ChainedBehind(m, c[0], c[After(c, 0)], x), PutInRing(t, path, x);
      && TreeOk(m', g, ms, i, t', true)
      && (forall p :: p in Addrs(t') <==> p in Addrs(t) || p == x)
      && Touches(m, m', g, ms, {c[0], c[After(c, 0)], x}, TreeBinAt(ms, i), TreeBinAt(ms, i))
  {
    ChunkFacts(m, g, ms, x);
    InsertChainedReady(m, f, ms, i, t, path);
    var c := Sub(t, path).ring;
    var m' := ChainedBehind(m, c[0], c[After(c, 0)], x);
    ChainTouches(m, g, ms, i, c[0], c[After(c, 0)], x);
    InsertChainedAt(m, m', f, g, ms, i, t, path, x);
    SubHolds(t, f, path);
    RingSpread(m, f, g, ms, Sub(t, path), x);
    InsertChainedTrie(f, g, BinLo(i), BinBits(i), t, path, x);
    TopOfSub(t, f, path);
    HeaderElsewhere(m, m', g, ms, {c[0], c[After(c, 0)], x}, TreeBinAt(ms, i), TreeBinAt(ms, i), TreeBinAt(ms, i));
  }

  lemma InsertChainedReady(m: Mem, f: Sizing, ms: int, i: nat, t: Trie, path: seq<bool>)
    requires i < NTREEBINS && TreeOk(m, f, ms, i, t, true) && OnTrie(t, path) && Sub(t, path).Node?
    ensures var c := Sub(t, path).ring;
      && c != [] && c[0] + FD in m && c[After(c, 0)] + BK in m && NumAt(m, c[0] + FD, c[After(c, 0)])
      && c[0] in f && c[After(c, 0)] in f && f[c[0]] == Sub(t, path).size && f[c[After(c, 0)]] == Sub(t, path).size
  {
    SubHolds(t, f, path);
    AtSub(m, t, TreeBinAt(ms, i), i, path);
    var c := Sub(t, path).ring;
    assert Link(m, c[0], c[After(c, 0)]);
    assert c[0] in c && c[After(c, 0)] in c;
  }

  lemma InsertChainedTrie(f: Sizing, g: Sizing, lo: nat, e: nat, t: Trie, path: seq<bool>, x: int)
    requires Ok(t, lo, e) && Holds(t, f) && (forall q :: q in f ==> q in g && g[q] == f[q]) && x in g
    requires OnTrie(t, path) && |path| <= e && Sub(t, path).Node? && Sub(t, path).size == g[x]
    requires Sub(t, path).ring != []
    requires Apart(InsertedSecond(Sub(t, path).ring, x))
    ensures var t' := PutInRing(t, path, x);
      && Ok(t', lo, e) && Holds(t', g)
      && (forall p :: p in Addrs(t') <==> p in Addrs(t) || p == x)
      && (forall z :: z in Sizes(t') ==> z in Sizes(t))
  {
    var n := Sub(t, path);
    SubHolds(t, f, path);
    SubOk(t, lo, e, path);
    RingGains(n, LoAt(lo, e, path), e - |path|, f, g, x);
    PutGains(t, lo, e, f, path, n.(ring := InsertedSecond(n.ring, x)), g, x);
  }

  lemma InsertChainedAt(m: Mem, m': Mem, f: Sizing, g: Sizing, ms: int, i: nat, t: Trie, path: seq<bool>, x: int)
    requires Inserting(m, f, g, ms, i, t, x) && t.Node?
    requires OnTrie(t, path) && |path| <= BinBits(i) && Sub(t, path).Node? && Sub(t, path).ring != []
    requires var c := Sub(t, path).ring;
      && c[0] + FD in m && c[After(c, 0)] + BK in m && x + PARENT in m && x + FD in m && x + BK in m
      && m' == ChainedBehind(m, c[0], c[After(c, 0)], x)
      && Touches(m, m', g, ms, {c[0], c[After(c, 0)], x}, TreeBinAt(ms, i), TreeBinAt(ms, i))
    ensures var t' := PutInRing(t, path, x);
      At(m', t', TreeBinAt(ms, i), i) && AddrOf(t') == AddrOf(t)
  {
    var lo, e, h, n := BinLo(i), BinBits(i), TreeBinAt(ms, i), Sub(t, path);
    OffRingAll(m, m', f, g, ms, i, t, n.ring, x);
    InsertChainedSub(m, m', f, g, ms, i, t, lo, e, path, x);
    RingInSub(t, path);
    AtPut(m, m', t, lo, e, f, h, i, path, n.(ring := InsertedSecond(n.ring, x)));
  }

  lemma InsertChainedSub(m: Mem, m': Mem, f: Sizing, g: Sizing, ms: int, i: nat, t: Trie, lo: nat, e: nat,
      path: seq<bool>, x: int)
    requires At(m, t, TreeBinAt(ms, i), i) && Ok(t, lo, e) && Holds(t, f) && Chunks(m, g, ms)
    requires x in g && x !in f && !IsSmall(g[x]) && forall q :: q in f ==> q in g && g[q] == f[q]
    requires NumAt(m, x + CHILD0, 0) && NumAt(m, x + CHILD1, 0) && NumAt(m, x + INDEX, i)
    requires OnTrie(t, path) && |path| <= e && Sub(t, path).Node? && Sub(t, path).ring != []
    requires var c := Sub(t, path).ring;
      && c[0] + FD in m && c[After(c, 0)] + BK in m && x + PARENT in m && x + FD in m && x + BK in m
      && m' == ChainedBehind(m, c[0], c[After(c, 0)], x)
      && (forall p :: p in Addrs(t) && p !in c ==> SameNode(m, m', p))
    ensures At(m', Sub(t, path).(ring := InsertedSecond(Sub(t, path).ring, x)), ParentAt(t, path, TreeBinAt(ms, i)), i)
  {
    SubHolds(t, f, path);
    SubOk(t, lo, e, path);
    AtSub(m, t, TreeBinAt(ms, i), i, path);
    InsertChainedNode(m, m', f, g, ms, i, Sub(t, path), LoAt(lo, e, path), e - |path|,
        ParentAt(t, path, TreeBinAt(ms, i)), x);
  }

  lemma RingInSub(t: Trie, path: seq<bool>)
    requires OnTrie(t, path) && Sub(t, path).Node?
    ensures forall p :: p in Sub(t, path).ring ==> p in Addrs(Sub(t, path))
  {}

  lemma OffRing(m: Mem, m': Mem, f: Sizing, g: Sizing, ms: int, i: nat, t: Trie, c: seq<int>, x: int, p: int)
    requires i < NTREEBINS && Chunks(m, g, ms) && Holds(t, f) && (forall q :: q in f ==> q in g && g[q] == f[q])
    requires c != [] && Touches(m, m', g, ms, {c[0], c[After(c, 0)], x}, TreeBinAt(ms, i), TreeBinAt(ms, i))
    requires p in Addrs(t) && p !in c && x !in f
    ensures SameNode(m, m', p)
  {
    AddrHasSize(t, f, p);
    assert c[0] in c && c[After(c, 0)] in c;
    TreeUntouched(m, m', f, g, ms, t, {c[0], c[After(c, 0)], x}, TreeBinAt(ms, i), TreeBinAt(ms, i), p);
  }

  lemma OffRingAll(m: Mem, m': Mem, f: Sizing, g: Sizing, ms: int, i: nat, t: Trie, c: seq<int>, x: int)
    requires i < NTREEBINS && Chunks(m, g, ms) && Holds(t, f) && (forall q :: q in f ==> q in g && g[q] == f[q])
    requires c != [] && Touches(m, m', g, ms, {c[0], c[After(c, 0)], x}, TreeBinAt(ms, i), TreeBinAt(ms, i)) && x !in f
    ensures forall p :: p in Addrs(t) && p !in c ==> SameNode(m, m', p)
  {
    forall p | p in Addrs(t) && p !in c ensures SameNode(m, m', p) {
      OffRing(m, m', f, g, ms, i, t, c, x, p);
    }
  }

  lemma InsertChainedNode(m: Mem, m': Mem, f: Sizing, g: Sizing, ms: int, i: nat, n: Trie, lo: nat, e: nat, par: int,
      x: int)
    requires n.Node? && At(m, n, par, i) && Ok(n, lo, e) && Holds(n, f) && Chunks(m, g, ms)
    requires x in g && x !in f && !IsSmall(g[x]) && forall q :: q in f ==> q in g && g[q] == f[q]
    requires NumAt(m, x + CHILD0, 0) && NumAt(m, x + CHILD1, 0) && NumAt(m, x + INDEX, i)
    requires var c := n.ring;
      && c[0] + FD in m && c[After(c, 0)] + BK in m && x + PARENT in m && x + FD in m && x + BK in m
      && m' == ChainedBehind(m, c[0], c[After(c, 0)], x)
      && (forall p :: p in Addrs(n) && p !in c ==> SameNode(m, m', p))
    ensures At(m', n.(ring := InsertedSecond(n.ring, x)), par, i)
  {
    RingSpread(m, f, g, ms, n, x);
    ChainRing(m, n.ring, par, i, x);
    ChainWords(m, n.ring[0], n.ring[After(n.ring, 0)], x, n.ring[0]);
    ChainNodeAt(m, m', n, lo, e, f, par, i, x);
  }

  lemma ChainNodeAt(m: Mem, m': Mem, n: Trie, lo: nat, e: nat, f: Sizing, par: int, i: nat, x: int)
    requires n.Node? && At(m, n, par, i) && Ok(n, lo, e) && Holds(n, f)
    requires RingAt(m', InsertedSecond(n.ring, x), par, i)
    requires SameWord(m, m', n.ring[0] + CHILD0) && SameWord(m, m', n.ring[0] + CHILD1)
    requires forall p :: p in Addrs(n) && p !in n.ring ==> SameNode(m, m', p)
    ensures At(m', n.(ring := InsertedSecond(n.ring, x)), par, i)
  {
    forall p | p in Addrs(n.left) || p in Addrs(n.right) ensures SameNode(m, m', p) {
      PartsDisjoint(n, lo, e, f, p);
    }
    AtKept(m, m', n.left, n.ring[0], i);
    AtKept(m, m', n.right, n.ring[0], i);
  }

  // ----- one tree bin changes, the others stay -----

  /** Bins whose chunks are not among those written to hold the same chunks. */
  lemma BinsUntouched(m: Mem, m': Mem, f: Sizing, g: Sizing, ms: int, h: Held, sm: Word32, tm: Word32, s: set<int>,
      at: int)
    requires BinsHold(m, f, ms, h, sm, tm) && Chunks(m, g, ms) && Touches(m, m', g, ms, s, at, at)
    requires forall q :: q in f ==> q in g && g[q] == f[q] && q !in s
    ensures BinsHold(m', f, ms, h, sm, tm) && Chunks(m', g, ms)
  {
    TouchesOnlyBins(m, m', g, ms, s, at, at);
    ChunksKept(m, m', g, ms);
    SmallsStay(m, m', f, g, ms, h.small, sm, s, at);
    TreesStay(m, m', f, g, ms, h.trees, tm, s, at);
    forall p | p in f ensures ChunkOk(m', p, f[p], ms) { ChunkFacts(m', g, ms, p); }
  }

  lemma SmallsStay(m: Mem, m': Mem, f: Sizing, g: Sizing, ms: int, small: seq<seq<int>>, sm: Word32, s: set<int>,
      at: int)
    requires Smalls(m, f, ms, small, sm) && Chunks(m, g, ms) && Touches(m, m', g, ms, s, at, at)
    requires forall q :: q in f ==> q in g && g[q] == f[q] && q !in s
    ensures Smalls(m', f, ms, small, sm)
  {
    forall j, q | 0 <= j < NSMALLBINS && j != -1 && q in small[j] && q in f ensures SameLinks(m, m', q) {
      UntouchedLinks(m, m', g, ms, s, at, at, q);
    }
    forall j | 0 <= j < NSMALLBINS && j != -1 ensures SameLinks(m, m', SmallBinAt(ms, j)) {
      HeaderElsewhere(m, m', g, ms, s, at, at, SmallBinAt(ms, j) + FD);
      HeaderElsewhere(m, m', g, ms, s, at, at, SmallBinAt(ms, j) + BK);
    }
    SmallsKept(m, m', f, f, ms, small, sm, -1);
  }

  lemma TreesStay(m: Mem, m': Mem, f: Sizing, g: Sizing, ms: int, trees: seq<Trie>, tm: Word32, s: set<int>, at: int)
    requires Trees(m, f, ms, trees, tm) && Chunks(m, g, ms) && Touches(m, m', g, ms, s, at, at)
    requires forall q :: q in f ==> q in g && g[q] == f[q] && q !in s
    ensures Trees(m', f, ms, trees, tm)
  {
    forall j, q | 0 <= j < NTREEBINS && j != -1 && q in Addrs(trees[j]) && q in f ensures SameNode(m, m', q) {
      assert TreeOk(m, f, ms, j, trees[j], tm[j]);
      AddrHasSize(trees[j], f, q);
      UntouchedLinks(m, m', g, ms, s, at, at, q);
    }
    forall j | 0 <= j < NTREEBINS && j != -1 ensures SameWord(m, m', TreeBinAt(ms, j)) {
      HeaderElsewhere(m, m', g, ms, s, at, at, TreeBinAt(ms, j));
    }
    TreesKept(m, m', f, f, ms, trees, tm, -1);
  }

  /** Bin `i` now holds the trie `t`; everything written to was in that bin. */
  lemma TreeBinChanged(m: Mem, m': Mem, f: Sizing, f': Sizing, g: Sizing, ms: int, h: Held, sm: Word32, tm: Word32,
                       i: nat, t: Trie, tm': Word32, s: set<int>, hi: int)
    requires BinsHold(m, f, ms, h, sm, tm) && Chunks(m, g, ms) && i < NTREEBINS
    requires Touches(m, m', g, ms, s, TreeBinAt(ms, i), hi) && hi <= TreeBinAt(ms, i) + 8
    requires forall q :: q in f ==> q in g && g[q] == f[q]
    requires forall q :: q in s ==> !IsSmall(g[q]) && ComputeTreeIndex(g[q]) == i
    requires forall q :: q in f && q !in s ==> q in f' && f'[q] == f[q]
    requires forall q :: q in f' ==> q in g && g[q] == f'[q]
    requires TreeOk(m', f', ms, i, t, tm'[i]) && forall j :: 0 <= j < NTREEBINS && j != i ==> tm'[j] == tm[j]
    requires Complete(f', Held(h.small, h.trees[i := t]))
    ensures BinsHold(m', f', ms, Held(h.small, h.trees[i := t]), sm, tm')
    ensures OnlyBins(m, m', g, ms)
  {
    var lo := TreeBinAt(ms, i);
    TouchesOnlyBins(m, m', g, ms, s, lo, hi);
    ChunksKept(m, m', g, ms);
    forall p | p in f' ensures ChunkOk(m', p, f'[p], ms) { ChunkFacts(m', g, ms, p); }
    SmallsUntouched(m, m', f, f', g, ms, h.small, sm, s, lo, hi, -1);
    TreesUntouched(m, m', f, f', g, ms, h.trees, tm, s, lo, hi, i);
    TreesUpdated(m', f', ms, h.trees, tm, i, t, tm');
  }

  lemma CompleteGains(f: Sizing, h: Held, i: nat, t: Trie, x: int, s: nat)
    requires |h.small| == NSMALLBINS && |h.trees| == NTREEBINS && Complete(f, h) && i < NTREEBINS
    requires !IsSmall(s) && ComputeTreeIndex(s) == i
    requires (forall p :: p in Addrs(t) <==> p in Addrs(h.trees[i]) || p == x)
    ensures Complete(f[x := s], Held(h.small, h.trees[i := t]))
  {}

  lemma CompleteLoses(f: Sizing, h: Held, i: nat, t: Trie, x: int)
    requires |h.small| == NSMALLBINS && |h.trees| == NTREEBINS && Complete(f, h) && i < NTREEBINS
    requires forall p :: p in Addrs(t) <==> p in Addrs(h.trees[i]) && p != x
    ensures Complete(f - {x}, Held(h.small, h.trees[i := t]))
  {}

  /** After its first writes to the new chunk the insertion can go on as if nothing had changed. */
  lemma PreparedOk(m: Mem, f: Sizing, ms: int, h: Held, sm: Word32, tm: Word32, x: int, s: nat)
    requires BinsHold(m, f, ms, h, sm, tm) && x !in f && !IsSmall(s) && Chunks(m, f[x := s], ms)
    ensures x + INDEX in m && x + CHILD0 in m && x + CHILD1 in m && ComputeTreeIndex(s) < NTREEBINS
    ensures var i := ComputeTreeIndex(s); var m', g := Prepared(m, x, i), f[x := s];
      && BinsHold(m', f, ms, h, sm, tm) && Chunks(m', g, ms) && InBin(s, i)
      && Inserting(m', f, g, ms, i, h.trees[i], x)
      && Touches(m, m', g, ms, {x}, TreeBinAt(ms, i), TreeBinAt(ms, i))
      && x + PARENT in m' && x + FD in m' && x + BK in m' && TreeBinAt(ms, i) in m'
  {
    var i, g := ComputeTreeIndex(s), f[x := s];
    assert g[x] == s;
    ChunkFacts(m, g, ms, x);
    IndexInBin(s);
    var m' := Prepared(m, x, i);
    BinsUntouched(m, m', f, g, ms, h, sm, tm, {x}, TreeBinAt(ms, i));
    assert TreeOk(m', f, ms, i, h.trees[i], tm[i]);
  }

  /** The end of every insertion: the bins hold the new chunk as well. */
  lemma InsertedOk(m: Mem, m': Mem, f: Sizing, ms: int, h: Held, sm: Word32, tm: Word32, x: int, s: nat, t: Trie,
      touched: set<int>, hi: int, tm': Word32)
    requires BinsHold(m, f, ms, h, sm, tm) && x !in f && !IsSmall(s) && Chunks(m, f[x := s], ms)
    requires ComputeTreeIndex(s) < NTREEBINS
    requires var i := ComputeTreeIndex(s);
      && TreeOk(m', f[x := s], ms, i, t, true) && (forall p :: p in Addrs(t) <==> p in Addrs(h.trees[i]) || p == x)
      && Touches(m, m', f[x := s], ms, touched, TreeBinAt(ms, i), hi) && hi <= TreeBinAt(ms, i) + 8
      && (forall q :: q in touched ==> q == x || (q in f && !IsSmall(f[q]) && ComputeTreeIndex(f[q]) == i))
      && tm' == Or(tm, Idx2Bit(i))
    ensures BinsHold(m', f[x := s], ms, Held(h.small, h.trees[ComputeTreeIndex(s) := t]), sm, tm')
    ensures OnlyBins(m, m', f[x := s], ms)
  {
    hide TreeOk, Touches, ChunkOk, Complete, ComputeTreeIndex, Addrs, At, Ok, Holds;
    var i, g := ComputeTreeIndex(s), f[x := s];
    CompleteGains(f, h, i, t, x, s);
    assert forall q :: q in touched ==> q in g && !IsSmall(g[q]) && ComputeTreeIndex(g[q]) == i;
    TreeBinChanged(m, m', f, g, g, ms, h, sm, tm, i, t, tm', touched, hi);
  }

  lemma OnlyBinsTrans(m: Mem, m1: Mem, m2: Mem, g: Sizing, ms: int)
    requires OnlyBins(m, m1, g, ms) && OnlyBins(m1, m2, g, ms)
    ensures OnlyBins(m, m2, g, ms)
  {}

  /** What a walk reads at a node. */
  ghost predicate NodeReadable(m: Mem, f: Sizing, ms: int, n: Trie) {
    n.Node? &&
    var y := AddrOf(n);
    && y in f && y > 0 && f[y] == n.size && y + HEAD in m && m[y + HEAD].Head? && m[y + HEAD].size == f[y]
    && NumAt(m, y + CHILD0, AddrOf(n.left)) && NumAt(m, y + CHILD1, AddrOf(n.right))
    && (AddrOf(n.left) == 0 <==> n.left.Empty?) && (AddrOf(n.right) == 0 <==> n.right.Empty?)
  }

  lemma NodeReads(m: Mem, f: Sizing, ms: int, i: nat, n: Trie, par: int)
    requires Chunks(m, f, ms) && n.Node? && Holds(n, f) && At(m, n, par, i)
    ensures NodeReadable(m, f, ms, n)
  {
    assert n.ring[0] in n.ring;
    ChunkFacts(m, f, ms, n.ring[0]);
    NullIsEmpty(m, n.left, n.ring[0], i);
    NullIsEmpty(m, n.right, n.ring[0], i);
  }

  lemma WalkReads(m: Mem, f: Sizing, ms: int, i: nat, t: Trie, path: seq<bool>)
    requires i < NTREEBINS && Chunks(m, f, ms) && TreeOk(m, f, ms, i, t, true) && OnTrie(t, path) && Sub(t, path).Node?
    ensures NodeReadable(m, f, ms, Sub(t, path))
  {
    SubHolds(t, f, path);
    AtSub(m, t, TreeBinAt(ms, i), i, path);
    NodeReads(m, f, ms, i, Sub(t, path), ParentAt(t, path, TreeBinAt(ms, i)));
  }

  /** The walk of an insertion can start at the root of a tree that is not empty. */
  lemma InsertStarts(m: Mem, f: Sizing, ms: int, h: Held, sm: Word32, tm: Word32, i: nat, x: int, s: nat)
    requires BinsHold(m, f, ms, h, sm, tm) && i < NTREEBINS && tm[i] && |h.trees| == NTREEBINS && x !in f
    requires Inserting(m, f, f[x := s], ms, i, h.trees[i], x)
    ensures h.trees[i].Node? && NumAt(m, TreeBinAt(ms, i), AddrOf(h.trees[i])) && s < TWO64
    ensures Ok(h.trees[i], BinLo(i), BinBits(i))
    ensures Walking(h.trees[i], BinLo(i), BinBits(i), [], s * Pow2(LeftShift(i)) % TWO64, s)
    ensures tm == Or(tm, Idx2Bit(i))
  {
    assert f[x := s][x] == s;
    ChunkFacts(m, f[x := s], ms, x);
    assert TreeOk(m, f, ms, i, h.trees[i], tm[i]);
    WalkStart(h.trees[i], s, i);
  }

  lemma NodeAbove(t: Trie, path: seq<bool>)
    requires OnTrie(t, path) && Sub(t, path).Node?
    ensures t.Node?
  {}

  lemma WalkReadsIn(m: Mem, f: Sizing, ms: int, h: Held, sm: Word32, tm: Word32, i: nat, path: seq<bool>)
    requires BinsHold(m, f, ms, h, sm, tm) && i < NTREEBINS && |h.trees| == NTREEBINS
    requires OnTrie(h.trees[i], path) && Sub(h.trees[i], path).Node?
    ensures NodeReadable(m, f, ms, Sub(h.trees[i], path))
  {
    hide BinsHold, TreeOk;
    TreeBinFacts(m, f, ms, h, sm, tm, i);
    NodeAbove(h.trees[i], path);
    WalkReads(m, f, ms, i, h.trees[i], path);
  }

  /** Where the walk found no child the new size is new to the trie and belongs right there. */
  lemma WalkEnds(t: Trie, lo: nat, e: nat, path: seq<bool>, b: bool, key: nat, s: nat)
    requires OnTrie(t, path) && Sub(t, path).Node? && |path| < e && OnTrie(t, path + [b])
    requires Sub(t, path + [b]) == Child(Sub(t, path), b) && Walking(t, lo, e, path + [b], key, s)
    requires Child(Sub(t, path), b).Empty?
    ensures s !in Sizes(t)
    ensures LoAt(lo, e, path + [b]) <= s < LoAt(lo, e, path + [b]) + Pow2(e - |path| - 1)
  {}

  lemma TopInBin(m: Mem, f: Sizing, ms: int, i: nat, t: Trie, path: seq<bool>)
    requires i < NTREEBINS && TreeOk(m, f, ms, i, t, true) && OnTrie(t, path) && Sub(t, path).Node?
    ensures Sub(t, path).ring != [] ==> InTreeBin(f, i, Sub(t, path).ring[0])
  {
    hide At, Ok, Holds, Sub, OnTrie;
    TopOfSub(t, f, path);
  }

  /** The ring an insertion ends at: what is read there. */
  lemma RingReadsIn(m: Mem, f: Sizing, ms: int, h: Held, sm: Word32, tm: Word32, i: nat, path: seq<bool>)
    requires BinsHold(m, f, ms, h, sm, tm) && i < NTREEBINS && |h.trees| == NTREEBINS
    requires OnTrie(h.trees[i], path) && Sub(h.trees[i], path).Node?
    ensures var c := Sub(h.trees[i], path).ring;
      && c != [] && c[0] + FD in m && c[After(c, 0)] + BK in m && NumAt(m, c[0] + FD, c[After(c, 0)])
      && InTreeBin(f, i, c[0]) && InTreeBin(f, i, c[After(c, 0)])
  {
    hide BinsHold, TreeOk, Chunks, Addrs, OnTrie, Sub;
    TreeBinFacts(m, f, ms, h, sm, tm, i);
    NodeAbove(h.trees[i], path);
    InsertChainedReady(m, f, ms, i, h.trees[i], path);
    TopInBin(m, f, ms, i, h.trees[i], path);
  }

  ghost predicate InTreeBin(f: Sizing, i: nat, q: int) { q in f && !IsSmall(f[q]) && ComputeTreeIndex(f[q]) == i }

  /** Chaining the new chunk behind one of its size, seen from all bins. */
  lemma ChainInserted(m: Mem, m': Mem, f: Sizing, ms: int, h: Held, sm: Word32, tm: Word32, x: int, s: nat, i: nat,
      path: seq<bool>)
    requires BinsHold(m, f, ms, h, sm, tm) && x !in f && !IsSmall(s) && Chunks(m, f[x := s], ms)
    requires i == ComputeTreeIndex(s) && i < NTREEBINS && tm == Or(tm, Idx2Bit(i)) && |h.trees| == NTREEBINS
    requires Inserting(m, f, f[x := s], ms, i, h.trees[i], x) && x + PARENT in m && x + FD in m && x + BK in m
    requires h.trees[i].Node? && OnTrie(h.trees[i], path) && |path| <= BinBits(i) && Sub(h.trees[i], path).Node?
    requires Sub(h.trees[i], path).size == s
    requires var c := Sub(h.trees[i], path).ring;
      c != [] && c[0] + FD in m && c[After(c, 0)] + BK in m && m' == ChainedBehind(m, c[0], c[After(c, 0)], x)
    ensures BinsHold(m', f[x := s], ms, Held(h.small, h.trees[i := PutInRing(h.trees[i], path, x)]), sm, tm)
    ensures OnlyBins(m, m', f[x := s], ms)
  {
    hide BinsHold, TreeOk, Inserting, Chunks, Complete, Put, At, Ok, Holds, BinLo, BinBits, Touches, OnlyBins;
    hide PutInRing, Ring, ChainedBehind, OnTrie, Sub;
    var t, c := h.trees[i], Sub(h.trees[i], path).ring;
    assert f[x := s][x] == s;
    RingReadsIn(m, f, ms, h, sm, tm, i, path);
    InsertChained(m, f, f[x := s], ms, i, t, path, x);
    InsertedOk(m, m', f, ms, h, sm, tm, x, s, PutInRing(t, path, x), {c[0], c[After(c, 0)], x}, TreeBinAt(ms, i), tm);
  }
}
