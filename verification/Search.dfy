/** Best-fit search in the tree bins. */
module Search {
  import opened Words
  import opened BinMap
  import opened TreeIndex
  import opened Rings
  import opened Tries
  import opened TrieMemory
  import opened Bins
  import opened TreeBins
  import opened TreeUnlink

  /** No chunk is large enough. */
  ghost predicate NoFit(f: Sizing, nb: nat) { forall p :: p in f ==> f[p] < nb }

  /** `v` is a smallest chunk among those that are large enough. */
  ghost predicate BestFit(f: Sizing, nb: nat, v: int) {
    v in f && f[v] >= nb && forall p :: p in f && f[p] >= nb ==> f[v] <= f[p]
  }

  /** The candidate so far: none, marked by the remainder `-nb` that every fit stays below, or a chunk and
      what it leaves over. */
  ghost predicate Chosen(f: Sizing, v: int, rsize: nat, nb: nat) {
    if v == 0 then rsize == TWO64 - nb else v in f && f[v] == nb + rsize
  }

  /** The candidate is no larger than `s`. */
  ghost predicate Beats(v: int, rsize: nat, nb: nat, s: nat) { v != 0 && nb + rsize <= s }

  /** The trie has a size that is large enough and no larger than `s`. */
  ghost predicate Covers(t: Trie, nb: nat, s: nat) { exists z :: z in Sizes(t) && nb <= z <= s }

  /** The unsigned test `trem < rsize` accepts exactly the fits that beat the candidate. */
  lemma FitTest(f: Sizing, v: int, rsize: nat, nb: nat, size: nat)
    requires Chosen(f, v, rsize, nb) && 0 < nb < TWO64 && 0 < size < TWO64 && (v != 0 ==> nb + rsize < TWO64)
    ensures Sub64(size, nb) < rsize <==> size >= nb && (v == 0 || size < nb + rsize)
    ensures size >= nb ==> Sub64(size, nb) == size - nb
  {}

  /** Every fit of the trie is no better than the candidate, or than one in the two subtrees still to be searched. */
  ghost predicate Covered(t: Trie, a: Trie, b: Trie, v: int, rsize: nat, nb: nat) {
    forall s :: s in Sizes(t) && s >= nb ==> Beats(v, rsize, nb, s) || Covers(a, nb, s) || Covers(b, nb, s)
  }

  ghost predicate AllFit(t: Trie, nb: nat) { forall s :: s in Sizes(t) ==> s >= nb }
  ghost predicate NoneFit(t: Trie, nb: nat) { forall s :: s in Sizes(t) ==> s < nb }

  /** The end of the range of sizes below the end of the path. */
  function RangeEnd(lo: nat, e: nat, path: seq<bool>): nat
    requires |path| <= e
  {
    LoAt(lo, e, path) + Pow2(e - |path|)
  }

  ghost predicate AllFrom(t: Trie, b: nat) { forall s :: s in Sizes(t) ==> s >= b }

  /** What the walk towards size `nb` knows when `nb` is a size of this bin. */
  ghost predicate OnTrack(t: Trie, lo: nat, e: nat, path: seq<bool>, key: nat, nb: nat, rst: Trie) {
    && OnTrie(t, path) && |path| <= e <= 64
    && Key(key, nb, LoAt(lo, e, path), e - |path|)
    && AllFrom(rst, RangeEnd(lo, e, path))
  }

  /** One step of the walk: the candidate has been compared with the node's own size; the child not taken is kept
      when it is the right one. */
  lemma SearchOn(t: Trie, lo: nat, e: nat, path: seq<bool>, key: nat, nb: nat, rst: Trie, v: int, rsize: nat)
    requires Ok(t, lo, e) && OnTrack(t, lo, e, path, key, nb, rst) && Sub(t, path).Node?
    requires Covered(t, Sub(t, path), rst, v, rsize, nb)
    requires Sub(t, path).size != nb && (Sub(t, path).size >= nb ==> Beats(v, rsize, nb, Sub(t, path).size))
    ensures key < TWO64 && OnTrie(t, path + [key / 0x8000_0000_0000_0000 == 1])
    ensures var b := key / 0x8000_0000_0000_0000 == 1;
      var rst' := if !b && Sub(t, path).right.Node? then Sub(t, path).right else rst;
      && Sub(t, path + [b]) == Child(Sub(t, path), b)
      && OnTrack(t, lo, e, path + [b], key * 2 % TWO64, nb, rst')
      && Covered(t, Sub(t, path + [b]), rst', v, rsize, nb)
  {
    hide Ok, Key, Covered, Beats;
    KeyRange(key, nb, LoAt(lo, e, path), e - |path|);
    MoreBits(t, lo, e, path, nb);
    KeyOn(lo, e, path, key, nb);
    var b := key / 0x8000_0000_0000_0000 == 1;
    var n := Sub(t, path);
    var rst' := if !b && n.right.Node? then n.right else rst;
    ExtendPath(t, path, b);
    SubOk(t, lo, e, path);
    ExtendLo(lo, e, path, b);
    NextRange(n, LoAt(lo, e, path), e - |path|, b, rst);
    CoveredOn(t, n, LoAt(lo, e, path), e - |path|, b, rst, rst', v, rsize, nb);
  }

  lemma KeyRange(key: nat, nb: nat, lo: nat, e: nat)
    requires Key(key, nb, lo, e)
    ensures lo <= nb < lo + Pow2(e)
  {}

  lemma NextRange(n: Trie, lo: nat, e: nat, b: bool, rst: Trie)
    requires n.Node? && Ok(n, lo, e) && e > 0 && AllFrom(rst, lo + Pow2(e))
    ensures var rst' := if !b && n.right.Node? then n.right else rst; AllFrom(rst', Half(lo, e, b) + Pow2(e - 1))
  {
    if !b && n.right.Node? {
      forall s | s in Sizes(n.right)
        ensures s >= lo + Pow2(e - 1)
      {
        SizesInRange(n.right, lo + Pow2(e - 1), e - 1, s);
      }
    }
  }

  lemma CoveredOn(t: Trie, n: Trie, lo: nat, e: nat, b: bool, rst: Trie, rst': Trie, v: int, rsize: nat, nb: nat)
    requires n.Node? && Ok(n, lo, e) && e > 0 && AllFrom(rst, lo + Pow2(e)) && lo <= nb < lo + Pow2(e)
    requires (b <==> nb >= lo + Pow2(e - 1)) && rst' == (if !b && n.right.Node? then n.right else rst)
    requires Covered(t, n, rst, v, rsize, nb) && (n.size >= nb ==> Beats(v, rsize, nb, n.size))
    ensures Covered(t, Child(n, b), rst', v, rsize, nb)
  {
    hide Ok;
    forall s | s in Sizes(t) && s >= nb && !Beats(v, rsize, nb, s)
      ensures Covers(Child(n, b), nb, s) || Covers(rst', nb, s)
    {
      if Covers(n, nb, s) {
        var z :| z in Sizes(n) && nb <= z <= s;
        FitBelow(n, lo, e, b, nb, z);
      } else {
        var z :| z in Sizes(rst) && nb <= z <= s;
        if rst' != rst {
          assert rst'.size in Sizes(rst');
          SizesInRange(n.right, lo + Pow2(e - 1), e - 1, rst'.size) by { SubtreeOk(n, lo, e); }
          assert Covers(rst', nb, s);
        }
      }
    }
  }

  lemma SubtreeOk(n: Trie, lo: nat, e: nat)
    requires n.Node? && Ok(n, lo, e) && e > 0
    ensures Ok(n.left, lo, e - 1) && Ok(n.right, lo + Pow2(e - 1), e - 1)
  {}

  lemma FitBelow(n: Trie, lo: nat, e: nat, b: bool, nb: nat, z: nat)
    requires n.Node? && Ok(n, lo, e) && e > 0 && (b <==> nb >= lo + Pow2(e - 1)) && z in Sizes(n) && z >= nb
    ensures z == n.size || z in Sizes(Child(n, b)) || (!b && z in Sizes(n.right))
  {
    if b && z in Sizes(n.left) {
      SizesInRange(n.left, lo, e - 1, z);
    }
  }

  // ----- down the left side -----

  /** The search for the smallest size below a node goes left where there is a left child. */
  function LeftmostChild(t: Trie): Trie
    requires t.Node?
  {
    if t.left.Node? then t.left else t.right
  }

  /** Going down the left side finds the best fit when everything there fits, and is harmless otherwise. */
  ghost predicate Descending(start: Trie, v: int, rsize: nat, nb: nat) {
    AllFit(start, nb) || (nb >= 0x100_0000_0000 && NoneFit(start, nb)) || (v != 0 && rsize == 0)
  }

  lemma DescendOn(t: Trie, n: Trie, lo: nat, e: nat, v: int, rsize: nat, nb: nat)
    requires n.Node? && Ok(n, lo, e) && Covered(t, n, Empty, v, rsize, nb) && Descending(n, v, rsize, nb)
    requires n.size >= nb ==> Beats(v, rsize, nb, n.size)
    ensures Covered(t, LeftmostChild(n), Empty, v, rsize, nb) && Descending(LeftmostChild(n), v, rsize, nb)
  {
    assert Sizes(LeftmostChild(n)) <= Sizes(n);
    forall s | s in Sizes(t) && s >= nb && !Beats(v, rsize, nb, s)
      ensures Covers(LeftmostChild(n), nb, s)
    {
      var z :| z in Sizes(n) && nb <= z <= s;
      if z in Sizes(n.right) && n.left.Node? {
        assert n.left.size in Sizes(n.left);
        LeftBelowRight(n, lo, e, n.left.size, z);
        assert nb <= n.left.size <= s;
      }
    }
  }

  /** At the end of the descent nothing is left to search. */
  lemma DescentEnds(t: Trie, v: int, rsize: nat, nb: nat)
    requires Covered(t, Empty, Empty, v, rsize, nb)
    ensures forall s :: s in Sizes(t) && s >= nb ==> Beats(v, rsize, nb, s)
  {}

  lemma NoneCovered(t: Trie, a: Trie, b: Trie, v: int, rsize: nat, nb: nat)
    requires NoneFit(t, nb)
    ensures Covered(t, a, b, v, rsize, nb)
  {}

  lemma CoveredSwap(t: Trie, a: Trie, b: Trie, v: int, rsize: nat, nb: nat)
    requires Covered(t, a, b, v, rsize, nb)
    ensures Covered(t, b, a, v, rsize, nb)
  {}

  /** A better candidate covers no less. */
  lemma CoveredBetter(t: Trie, a: Trie, b: Trie, v: int, rsize: nat, v': int, rsize': nat, nb: nat)
    requires Covered(t, a, b, v, rsize, nb) && (v != 0 ==> v' != 0 && rsize' <= rsize)
    ensures Covered(t, a, b, v', rsize', nb)
  {}

  lemma ExactCovers(t: Trie, a: Trie, b: Trie, v: int, nb: nat)
    requires v != 0
    ensures Covered(t, a, b, v, 0, nb)
  {}

  /** What is left after the walk: the deepest right subtree not taken, in which everything fits. */
  lemma RestDescends(t: Trie, lo: nat, e: nat, path: seq<bool>, key: nat, nb: nat, rst: Trie, v: int, rsize: nat)
    requires OnTrack(t, lo, e, path, key, nb, rst)
    ensures Descending(rst, v, rsize, nb)
  {
    KeyRange(key, nb, LoAt(lo, e, path), e - |path|);
  }

  lemma NoneFitSub(t: Trie, f: Sizing, path: seq<bool>, nb: nat)
    requires NoneFit(t, nb) && Holds(t, f) && OnTrie(t, path)
    ensures NoneFit(Sub(t, path), nb)
  {
    SubHolds(t, f, path);
  }

  /** Two different children have different addresses. */
  lemma ChildrenDiffer(n: Trie, lo: nat, e: nat, f: Sizing)
    requires n.Node? && Ok(n, lo, e) && Holds(n, f) && n.left.Node? && n.right.Node?
    ensures AddrOf(n.left) != AddrOf(n.right)
  {
    assert AddrOf(n.left) in n.left.ring && AddrOf(n.right) in n.right.ring;
    PartsDisjoint(n, lo, e, f, AddrOf(n.left));
  }

  // ----- across the bins -----

  /** A large chunk's size is in the trie of the bin it selects. */
  lemma LargeInTree(m: Mem, f: Sizing, ms: int, h: Held, sm: Word32, tm: Word32, p: int)
    requires BinsHold(m, f, ms, h, sm, tm) && p in f && !IsSmall(f[p])
    ensures |h.trees| == NTREEBINS && f[p] < 0x100_0000_0000
    ensures var j := ComputeTreeIndex(f[p]);
      j < NTREEBINS && InBin(f[p], j) && h.trees[j].Node? && tm[j] && f[p] in Sizes(h.trees[j])
  {
    hide Smalls, At, Ok;
    HeldComplete(m, f, ms, h, sm, tm);
    var j := ComputeTreeIndex(f[p]);
    TreeBinFacts(m, f, ms, h, sm, tm, j);
    AddrHasSize(h.trees[j], f, p);
    ChunkFacts(m, f, ms, p);
    IndexInBin(f[p]);
  }

  lemma SizeInTree(m: Mem, f: Sizing, ms: int, h: Held, sm: Word32, tm: Word32, j: nat, s: nat)
    requires BinsHold(m, f, ms, h, sm, tm) && j < NTREEBINS && |h.trees| == NTREEBINS && s in Sizes(h.trees[j])
    ensures MIN_LARGE_SIZE <= s < 0x100_0000_0000 && InBin(s, j) && ComputeTreeIndex(s) == j
  {
    hide Smalls, At, Ok;
    TreeBinFacts(m, f, ms, h, sm, tm, j);
    var p := SizeHasAddr(h.trees[j], f, s);
    AddrHasSize(h.trees[j], f, p);
    ChunkFacts(m, f, ms, p);
    IndexInBin(s);
  }

  /** Nothing is as large as a request beyond 2^40. */
  lemma HugeFitsNowhere(m: Mem, f: Sizing, ms: int, nb: nat)
    requires Chunks(m, f, ms) && nb >= 0x100_0000_0000
    ensures NoFit(f, nb)
  {
    forall p | p in f ensures f[p] < nb { ChunkFacts(m, f, ms, p); }
  }

  /** The bins below the one that the request selects hold only smaller chunks. */
  lemma LowerBinsFail(m: Mem, f: Sizing, ms: int, h: Held, sm: Word32, tm: Word32, nb: nat, idx: nat, j: nat)
    requires BinsHold(m, f, ms, h, sm, tm) && InBin(nb, idx) && j < idx && |h.trees| == NTREEBINS
    ensures NoneFit(h.trees[j], nb)
  {
    hide BinsHold;
    forall s | s in Sizes(h.trees[j]) ensures s < nb {
      SizeInTree(m, f, ms, h, sm, tm, j, s);
      BinsOrdered(s, j, nb, idx);
    }
  }

  /** Above it, all chunks of a bin fit. */
  lemma HigherBinsFit(m: Mem, f: Sizing, ms: int, h: Held, sm: Word32, tm: Word32, nb: nat, idx: nat, j: nat)
    requires BinsHold(m, f, ms, h, sm, tm) && InBin(nb, idx) && idx < j < NTREEBINS && |h.trees| == NTREEBINS
    ensures AllFit(h.trees[j], nb)
  {
    hide BinsHold;
    forall s | s in Sizes(h.trees[j]) ensures s >= nb {
      SizeInTree(m, f, ms, h, sm, tm, j, s);
      BinsOrdered(nb, idx, s, j);
    }
  }

  /** Bin `i` has been searched and the bins below it have no fit: the candidate is a best fit of all tree bins. */
  lemma BestAcross(m: Mem, f: Sizing, ms: int, h: Held, sm: Word32, tm: Word32, nb: nat, i: nat, v: int, rsize: nat)
    requires BinsHold(m, f, ms, h, sm, tm) && i < NTREEBINS && |h.trees| == NTREEBINS
    requires Standing(f, h.trees[i], Empty, Empty, v, rsize, nb) && v != 0
    requires forall j :: 0 <= j < i ==> NoneFit(h.trees[j], nb)
    ensures BestLarge(f, nb, v) && f[v] == nb + rsize
  {
    hide BinsHold, NoneFit, Covered;
    SizeInTree(m, f, ms, h, sm, tm, i, f[v]);
    DescentEnds(h.trees[i], v, rsize, nb);
    forall p | p in f && f[p] >= nb && !IsSmall(f[p]) ensures f[v] <= f[p] {
      LargeInTree(m, f, ms, h, sm, tm, p);
      var j := ComputeTreeIndex(f[p]);
      if j < i {
        NotAmong(h.trees[j], nb, f[p]);
      } else if j > i {
        BinsOrdered(f[v], i, f[p], j);
      }
    }
  }

  /** A smallest one of the large chunks that are large enough. */
  ghost predicate BestLarge(f: Sizing, nb: nat, v: int) {
    v in f && f[v] >= nb && !IsSmall(f[v]) && forall p :: p in f && f[p] >= nb && !IsSmall(f[p]) ==> f[v] <= f[p]
  }

  lemma NotAmong(t: Trie, nb: nat, s: nat)
    requires NoneFit(t, nb) && s >= nb
    ensures s !in Sizes(t)
  {}

  lemma NoneAcross(m: Mem, f: Sizing, ms: int, h: Held, sm: Word32, tm: Word32, nb: nat)
    requires BinsHold(m, f, ms, h, sm, tm) && |h.trees| == NTREEBINS && nb >= MIN_LARGE_SIZE
    requires forall j :: 0 <= j < NTREEBINS ==> NoneFit(h.trees[j], nb)
    ensures NoFit(f, nb)
  {
    hide BinsHold, NoneFit;
    forall p | p in f ensures f[p] < nb {
      if f[p] >= nb {
        LargeInTree(m, f, ms, h, sm, tm, p);
        NotAmong(h.trees[ComputeTreeIndex(f[p])], nb, f[p]);
      }
    }
  }

  /** Where a search in tree `t` stands: a candidate from that tree, and two subtrees that may still hold better fits.
      */
  ghost predicate Standing(f: Sizing, t: Trie, a: Trie, b: Trie, v: int, rsize: nat, nb: nat) {
    && Chosen(f, v, rsize, nb) && (v != 0 ==> nb + rsize in Sizes(t))
    && Covered(t, a, b, v, rsize, nb)
  }

  lemma StandingStarts(f: Sizing, t: Trie, nb: nat)
    requires 0 < nb < TWO64
    ensures Standing(f, t, t, Empty, 0, TWO64 - nb, nb)
  {}

  /** The node `n`, of a tree in memory, becomes the candidate exactly if it beats the one so far. */
  lemma StandingTest(m: Mem, f: Sizing, ms: int, t: Trie, n: Trie, b: Trie, v: int, rsize: nat, nb: nat)
    requires Chunks(m, f, ms) && NodeReadable(m, f, ms, n) && ms > 0 && 0 < nb < TWO64
    requires Standing(f, t, n, b, v, rsize, nb) && Sizes(n) <= Sizes(t)
    ensures n.size < TWO64
    ensures var trem := Sub64(n.size, nb);
      var v', rsize' := (if trem < rsize then AddrOf(n) else v), (if trem < rsize then trem else rsize);
      && Standing(f, t, n, b, v', rsize', nb)
      && (n.size >= nb ==> Beats(v', rsize', nb, n.size)) && (n.size == nb ==> rsize' == 0)
      && (v' != 0 && rsize' == 0 && n.size != nb ==> v' == v && rsize == 0)
      && (v != 0 ==> v' != 0 && rsize' <= rsize)
  {
    hide Covered;
    ChunkFacts(m, f, ms, AddrOf(n));
    if v != 0 { ChunkFacts(m, f, ms, v); }
    FitTest(f, v, rsize, nb, n.size);
    var trem := Sub64(n.size, nb);
    if trem < rsize {
      CoveredBetter(t, n, b, v, rsize, AddrOf(n), trem, nb);
    }
    assert n.size in Sizes(n);
  }

  lemma StandingParts(f: Sizing, t: Trie, a: Trie, b: Trie, v: int, rsize: nat, nb: nat)
    requires Standing(f, t, a, b, v, rsize, nb)
    ensures Chosen(f, v, rsize, nb) && Covered(t, a, b, v, rsize, nb) && (v != 0 ==> nb + rsize in Sizes(t))
  {}

  /** The subtree left to search lies in the tree. */
  ghost predicate Part(t: Trie, path: seq<bool>, s: Trie) { OnTrie(t, path) && Sub(t, path) == s }

  lemma RootPart(t: Trie)
    ensures OnTrie(t, []) && Sub(t, []) == t
  {}

  /** The step of the walk towards `nb`, whether or not `nb` is a size of this bin. */
  lemma StandingOn(f: Sizing, t: Trie, lo: nat, e: nat, path: seq<bool>, key: nat, nb: nat, rst: Trie, v: int,
      rsize: nat, good: bool)
    requires Ok(t, lo, e) && Holds(t, f) && OnTrie(t, path) && Sub(t, path).Node? && Sub(t, path).size != nb
    requires key < TWO64
    requires Standing(f, t, Sub(t, path), rst, v, rsize, nb)
    requires (Sub(t, path).size >= nb ==> Beats(v, rsize, nb, Sub(t, path).size))
    requires if good then OnTrack(t, lo, e, path, key, nb, rst) else NoneFit(t, nb)
    ensures var n, b := Sub(t, path), key / 0x8000_0000_0000_0000 == 1;
      var rst' := if !b && n.right.Node? then n.right else rst;
      && Part(t, path + [b], Child(n, b))
      && Standing(f, t, Child(n, b), rst', v, rsize, nb)
      && (if good then OnTrack(t, lo, e, path + [b], key * 2 % TWO64, nb, rst') else NoneFit(t, nb))
  {
    hide Ok, Holds, OnTrack, Covered, NoneFit, Chosen;
    StandingParts(f, t, Sub(t, path), rst, v, rsize, nb);
    var n, b := Sub(t, path), key / 0x8000_0000_0000_0000 == 1;
    var rst' := if !b && n.right.Node? then n.right else rst;
    ExtendPath(t, path, b);
    if good {
      SearchOn(t, lo, e, path, key, nb, rst, v, rsize);
    } else {
      NoneCovered(t, Child(n, b), rst', v, rsize, nb);
    }
  }

  /** The walk starts at the root of a tree that is not empty. */
  lemma TreeToSearch(m: Mem, f: Sizing, ms: int, h: Held, sm: Word32, tm: Word32, idx: nat, nb: nat)
    requires BinsHold(m, f, ms, h, sm, tm) && |h.trees| == NTREEBINS && idx == ComputeTreeIndex(nb) && idx < NTREEBINS
    requires MIN_LARGE_SIZE <= nb < TWO64
    ensures NumAt(m, TreeBinAt(ms, idx), AddrOf(h.trees[idx])) && ms > 0 && Chunks(m, f, ms)
    ensures Ok(h.trees[idx], BinLo(idx), BinBits(idx)) && Holds(h.trees[idx], f)
    ensures if nb < 0x100_0000_0000
            then OnTrack(h.trees[idx], BinLo(idx), BinBits(idx), [], nb * Pow2(LeftShift(idx)) % TWO64, nb, Empty)
            else NoneFit(h.trees[idx], nb)
  {
    hide Smalls, At, Ok;
    TreeBinFacts(m, f, ms, h, sm, tm, idx);
    if nb < 0x100_0000_0000 {
      IndexInBin(nb);
      FirstKey(nb, idx);
    } else {
      HugeFitsNowhere(m, f, ms, nb);
      forall s | s in Sizes(h.trees[idx]) ensures s < nb { SizeInTree(m, f, ms, h, sm, tm, idx, s); }
    }
  }

  /** What the searches read at a node. */
  lemma SearchReads(m: Mem, f: Sizing, ms: int, h: Held, sm: Word32, tm: Word32, i: nat, path: seq<bool>)
    requires BinsHold(m, f, ms, h, sm, tm) && i < NTREEBINS && |h.trees| == NTREEBINS
    requires OnTrie(h.trees[i], path) && Sub(h.trees[i], path).Node?
    ensures NodeReadable(m, f, ms, Sub(h.trees[i], path)) && |path| <= BinBits(i)
    ensures Sizes(Sub(h.trees[i], path)) <= Sizes(h.trees[i])
    ensures var n := Sub(h.trees[i], path); n.left.Node? && n.right.Node? ==> AddrOf(n.left) != AddrOf(n.right)
  {
    hide BinsHold, Chunks, TreeOk, At, Ok, Holds, Sizes, NodeReadable, OnTrie, Sub, BinLo, BinBits;
    WalkReadsIn(m, f, ms, h, sm, tm, i, path);
    NodeAbove(h.trees[i], path);
    TreeBinFacts(m, f, ms, h, sm, tm, i);
    TreeParts(m, f, ms, i, h.trees[i]);
    NodePlace(m, f, ms, i, h.trees[i], path);
    SubHolds(h.trees[i], f, path);
    var n := Sub(h.trees[i], path);
    if n.left.Node? && n.right.Node? {
      ChildrenDiffer(n, LoAt(BinLo(i), BinBits(i), path), BinBits(i) - |path|, f);
    }
  }

  /** A chunk of exactly the requested size ends the walk. */
  lemma ExactEnd(f: Sizing, t: Trie, a: Trie, b: Trie, v: int, nb: nat)
    requires Standing(f, t, a, b, v, 0, nb) && v != 0
    ensures Standing(f, t, a, Empty, v, 0, nb) && Descending(a, v, 0, nb)
  {
    ExactCovers(t, a, Empty, v, nb);
  }

  /** The walk has run out of children: what is left is the deepest right subtree not taken. */
  lemma WalkOver(f: Sizing, t: Trie, lo: nat, e: nat, path: seq<bool>, key: nat, nb: nat, rst: Trie, rp: seq<bool>,
      v: int, rsize: nat, good: bool)
    requires Standing(f, t, Empty, rst, v, rsize, nb) && Holds(t, f) && (rst.Node? ==> Part(t, rp, rst))
    requires if good then OnTrack(t, lo, e, path, key, nb, rst) else nb >= 0x100_0000_0000 && NoneFit(t, nb)
    ensures Standing(f, t, rst, Empty, v, rsize, nb) && Descending(rst, v, rsize, nb)
  {
    hide Holds, Covered, OnTrack;
    CoveredSwap(t, Empty, rst, v, rsize, nb);
    if good {
      RestDescends(t, lo, e, path, key, nb, rst, v, rsize);
    } else if rst.Node? {
      NoneFitSub(t, f, rp, nb);
    }
  }

  lemma TreeInMemory(m: Mem, f: Sizing, ms: int, h: Held, sm: Word32, tm: Word32, i: nat)
    requires BinsHold(m, f, ms, h, sm, tm) && i < NTREEBINS
    ensures |h.small| == NSMALLBINS && |h.trees| == NTREEBINS
    ensures ms > 0 && Chunks(m, f, ms) && NumAt(m, TreeBinAt(ms, i), AddrOf(h.trees[i]))
    ensures (tm[i] <==> h.trees[i].Node?)
    ensures Ok(h.trees[i], BinLo(i), BinBits(i)) && Holds(h.trees[i], f)
    ensures AddrOf(h.trees[i]) == 0 <==> h.trees[i].Empty?
  {
    hide At, Ok, Holds, Smalls;
    TreeBinFacts(m, f, ms, h, sm, tm, i);
    NullIsEmpty(m, h.trees[i], TreeBinAt(ms, i), i);
  }

  /** Comparing with the next node does not make the descent pointless. */
  lemma DescendingStays(n: Trie, v: int, rsize: nat, m: Mem, f: Sizing, ms: int, nb: nat)
    requires Descending(n, v, rsize, nb) && NodeReadable(m, f, ms, n) && Chunks(m, f, ms) && 0 < nb < TWO64
    requires n.size < TWO64
    ensures var trem := Sub64(n.size, nb);
      var v', rsize' := (if trem < rsize then AddrOf(n) else v), (if trem < rsize then trem else rsize);
      Descending(n, v', rsize', nb)
  {}

  lemma DescentOn(m: Mem, f: Sizing, ms: int, h: Held, sm: Word32, tm: Word32, i: nat, path: seq<bool>, v: int,
      rsize: nat, nb: nat)
    requires BinsHold(m, f, ms, h, sm, tm) && i < NTREEBINS && |h.trees| == NTREEBINS
    requires OnTrie(h.trees[i], path) && Sub(h.trees[i], path).Node?
    requires var n := Sub(h.trees[i], path);
      && Standing(f, h.trees[i], n, Empty, v, rsize, nb) && Descending(n, v, rsize, nb)
      && (n.size >= nb ==> Beats(v, rsize, nb, n.size))
    ensures var n := Sub(h.trees[i], path);
      && Standing(f, h.trees[i], LeftmostChild(n), Empty, v, rsize, nb) && Descending(LeftmostChild(n), v, rsize, nb)
      && Part(h.trees[i], path + [n.left.Empty?], LeftmostChild(n))
  {
    hide BinsHold, TreeOk, At, Ok, Holds, Covered, Descending, Chosen, Beats;
    var n := Sub(h.trees[i], path);
    NodeAbove(h.trees[i], path);
    TreeBinFacts(m, f, ms, h, sm, tm, i);
    NodePlace(m, f, ms, i, h.trees[i], path);
    DescendOn(h.trees[i], n, LoAt(BinLo(i), BinBits(i), path), BinBits(i) - |path|, v, rsize, nb);
    ExtendPath(h.trees[i], path, n.left.Empty?);
  }

  /** Something that fits was left to search, so the search has found something. */
  lemma StartHits(f: Sizing, t: Trie, start: Trie, sp: seq<bool>, v: int, rsize: nat, nb: nat)
    requires Standing(f, t, Empty, Empty, v, rsize, nb) && start.Node? && Part(t, sp, start) && Holds(t, f)
    requires AllFit(start, nb)
    ensures v != 0
  {
    hide Holds;
    SubHolds(t, f, sp);
    assert start.size in Sizes(start);
    DescentEnds(t, v, rsize, nb);
  }

  /** The tree that the request selects holds no fit: the next one to look at is the least non-empty one above it. */
  lemma NextBin(m: Mem, f: Sizing, ms: int, h: Held, sm: Word32, tm: Word32, nb: nat, idx: nat, left: Word32)
    requires BinsHold(m, f, ms, h, sm, tm) && |h.trees| == NTREEBINS && idx == ComputeTreeIndex(nb) && idx < NTREEBINS
    requires nb >= MIN_LARGE_SIZE
    requires NoneFit(h.trees[idx], nb) && left == And(LeftBits(Idx2Bit(idx)), tm)
    ensures nb < 0x100_0000_0000 && IsZero(left) ==> NoFit(f, nb)
    ensures nb < 0x100_0000_0000 ==>
      forall i: nat :: Lowest(left, i) ==> AllFit(h.trees[i], nb) && forall j :: 0 <= j < i ==> NoneFit(h.trees[j], nb)
    ensures forall i: nat :: Lowest(left, i) ==> idx < i && h.trees[i].Node?
  {
    hide BinsHold, NoneFit, AllFit, LeftBits, ComputeTreeIndex;
    if nb < 0x100_0000_0000 { IndexInBin(nb); }
    forall j | 0 <= j < NTREEBINS
      ensures left[j] <==> j > idx && h.trees[j].Node?
      ensures !left[j] ==> j > idx ==> h.trees[j].Empty?
      ensures j <= idx && nb < 0x100_0000_0000 ==> NoneFit(h.trees[j], nb)
    {
      LeftBitsAbove(Idx2Bit(idx), idx, j);
      TreeBinFacts(m, f, ms, h, sm, tm, j);
      if j < idx && nb < 0x100_0000_0000 { LowerBinsFail(m, f, ms, h, sm, tm, nb, idx, j); }
    }
    EmptyFits(nb);
    if IsZero(left) && nb < 0x100_0000_0000 {
      NoneAcross(m, f, ms, h, sm, tm, nb);
    }
    forall i: nat | Lowest(left, i) && nb < 0x100_0000_0000 ensures AllFit(h.trees[i], nb) {
      HigherBinsFit(m, f, ms, h, sm, tm, nb, idx, i);
    }
  }

  lemma EmptyFits(nb: nat)
    ensures NoneFit(Empty, nb)
  {}

  /** The least non-empty tree of all. */
  lemma FirstBin(m: Mem, f: Sizing, ms: int, h: Held, sm: Word32, tm: Word32, nb: nat, i: nat)
    requires BinsHold(m, f, ms, h, sm, tm) && Lowest(tm, i) && |h.trees| == NTREEBINS && nb <= MIN_LARGE_SIZE
    ensures h.trees[i].Node? && AllFit(h.trees[i], nb) && forall j :: 0 <= j < i ==> NoneFit(h.trees[j], nb)
  {
    hide BinsHold;
    TreeBinFacts(m, f, ms, h, sm, tm, i);
    forall j | 0 <= j < i ensures NoneFit(h.trees[j], nb) { TreeBinFacts(m, f, ms, h, sm, tm, j); }
    forall s | s in Sizes(h.trees[i]) ensures s >= nb { SizeInTree(m, f, ms, h, sm, tm, i, s); }
  }

  lemma StandingEmpty(f: Sizing, nb: nat)
    requires 0 < nb < TWO64
    ensures Standing(f, Empty, Empty, Empty, 0, TWO64 - nb, nb) && Descending(Empty, 0, TWO64 - nb, nb)
  {}

  lemma NothingStanding(f: Sizing, t: Trie, rsize: nat, nb: nat)
    requires Standing(f, t, Empty, Empty, 0, rsize, nb)
    ensures NoneFit(t, nb) && rsize == TWO64 - nb
  {
    DescentEnds(t, 0, rsize, nb);
  }

  /** Before the bin that the request selects there is no fit. */
  lemma LowerBinsSearched(m: Mem, f: Sizing, ms: int, h: Held, sm: Word32, tm: Word32, nb: nat, idx: nat)
    requires BinsHold(m, f, ms, h, sm, tm) && |h.trees| == NTREEBINS && idx == ComputeTreeIndex(nb)
    requires nb >= MIN_LARGE_SIZE
    ensures nb < 0x100_0000_0000 ==> forall j :: 0 <= j < idx && j < NTREEBINS ==> NoneFit(h.trees[j], nb)
  {
    hide BinsHold, NoneFit, ComputeTreeIndex;
    if nb < 0x100_0000_0000 {
      IndexInBin(nb);
      forall j | 0 <= j < idx && j < NTREEBINS
        ensures NoneFit(h.trees[j], nb)
      {
        LowerBinsFail(m, f, ms, h, sm, tm, nb, idx, j);
      }
    }
  }

  lemma StartAtRoot(m: Mem, f: Sizing, ms: int, h: Held, sm: Word32, tm: Word32, j: nat, nb: nat)
    requires BinsHold(m, f, ms, h, sm, tm) && |h.trees| == NTREEBINS && j < NTREEBINS && 0 < nb < TWO64
    requires nb < 0x100_0000_0000 ==> AllFit(h.trees[j], nb)
    ensures Part(h.trees[j], [], h.trees[j])
    ensures Standing(f, h.trees[j], h.trees[j], Empty, 0, TWO64 - nb, nb) && Descending(h.trees[j], 0, TWO64 - nb, nb)
  {
    hide BinsHold, AllFit;
    StandingStarts(f, h.trees[j], nb);
    forall s | s in Sizes(h.trees[j])
      ensures nb >= 0x100_0000_0000 ==> s < nb
    {
      SizeInTree(m, f, ms, h, sm, tm, j, s);
    }
  }

  lemma AllDescends(t: Trie, nb: nat)
    requires AllFit(t, nb)
    ensures forall v: int, rsize: nat :: Descending(t, v, rsize, nb)
  {}

  lemma PartOf(t: Trie, path: seq<bool>, n: Trie)
    requires Part(t, path, n)
    ensures OnTrie(t, path) && Sub(t, path) == n
  {}

  /** The first chunk compared is taken. */
  lemma FirstFits(m: Mem, f: Sizing, ms: int, n: Trie, nb: nat)
    requires Chunks(m, f, ms) && NodeReadable(m, f, ms, n) && AllFit(n, nb) && 0 < nb < TWO64 && n.size < TWO64
    ensures Sub64(n.size, nb) < TWO64 - nb && AddrOf(n) > 0
  {
    assert n.size in Sizes(n);
  }

  /** What the search of `tmalloc_large` has found at its end. */
  lemma SearchEnds(m: Mem, f: Sizing, ms: int, h: Held, sm: Word32, tm: Word32, i: nat, start: Trie, sp: seq<bool>,
                   v0: int, rsize0: nat, v: int, rsize: nat, nb: nat)
    requires BinsHold(m, f, ms, h, sm, tm) && |h.trees| == NTREEBINS && i < NTREEBINS && nb >= MIN_LARGE_SIZE
    requires nb < 0x100_0000_0000 ==> forall j :: 0 <= j < i ==> NoneFit(h.trees[j], nb)
    requires Descending(start, v0, rsize0, nb) && (start.Node? ==> Part(h.trees[i], sp, start))
    requires nb < 0x100_0000_0000 && start.Empty? && v0 == 0 ==> NoFit(f, nb)
    requires Standing(f, h.trees[i], Empty, Empty, v, rsize, nb) && (v0 != 0 ==> v != 0)
    ensures v == 0 ==> NoFit(f, nb)
    ensures v != 0 ==> BestFit(f, nb, v) && f[v] == nb + rsize
  {
    hide BinsHold, NoneFit, AllFit, Part, Covered;
    TreeInMemory(m, f, ms, h, sm, tm, i);
    if nb >= 0x100_0000_0000 {
      HugeFitsNowhere(m, f, ms, nb);
    } else if v != 0 {
      BestAcross(m, f, ms, h, sm, tm, nb, i, v, rsize);
    } else if start.Node? {
      StartHits(f, h.trees[i], start, sp, v, rsize, nb);
    }
  }

  // ----- small bins -----

  /** The newest chunk of a small bin that is not empty. */
  lemma FirstOfBin(m: Mem, f: Sizing, ms: int, h: Held, sm: Word32, tm: Word32, i: nat)
    requires BinsHold(m, f, ms, h, sm, tm) && i < NSMALLBINS && sm[i]
    ensures |h.small| == NSMALLBINS && h.small[i] != []
    ensures var p := h.small[i][0];
      NumAt(m, SmallBinAt(ms, i) + FD, p) && p in f && f[p] == 8 * i && SizeAt(m, p) == f[p] && HasHeadWord(m, p)
  {
    hide Chunks;
    SmallBinFacts(m, f, ms, h, sm, tm, i);
    var l := h.small[i];
    assert l[0] in l;
    ChunkFacts(m, f, ms, l[0]);
    var c := [SmallBinAt(ms, i)] + l;
    assert Link(m, c[0], c[After(c, 0)]);
  }

  ghost predicate HasHeadWord(m: Mem, p: int) { p + HEAD in m && m[p + HEAD].Head? }

  /** The lowest small bin that is large enough and not empty holds the best fits. */
  lemma LowestBinFits(m: Mem, f: Sizing, ms: int, h: Held, sm: Word32, tm: Word32, idx: nat, i: nat, p: int)
    requires BinsHold(m, f, ms, h, sm, tm) && idx <= i < NSMALLBINS && p in f && f[p] == 8 * i
    requires forall j :: idx <= j < i ==> !sm[j]
    ensures BestFit(f, 8 * idx, p)
  {
    hide Chunks, TreeOk;
    forall q | q in f && f[q] >= 8 * idx ensures f[p] <= f[q] {
      if IsSmall(f[q]) { SmallIsMarked(m, f, ms, h, sm, tm, q); }
    }
  }

  lemma SmallIsMarked(m: Mem, f: Sizing, ms: int, h: Held, sm: Word32, tm: Word32, q: int)
    requires BinsHold(m, f, ms, h, sm, tm) && q in f && IsSmall(f[q])
    ensures f[q] / 8 < NSMALLBINS && sm[f[q] / 8] && f[q] == 8 * (f[q] / 8)
  {
    hide Chunks, TreeOk;
    var i := f[q] / 8;
    SmallBinFacts(m, f, ms, h, sm, tm, i);
  }

  /** No chunk has exactly that size. */
  ghost predicate NoExact(f: Sizing, nb: nat) { forall p :: p in f ==> f[p] != nb }

  /** The bins leave a request to `dv` or `top`. */
  ghost predicate Passed(f: Sizing, dvsize: nat, nb: nat) {
    if dvsize < nb then NoFit(f, nb)
    else if IsSmall(nb) then NoExact(f, nb)
    else forall p :: p in f && f[p] >= nb ==> dvsize <= f[p]
  }

  lemma AllPassed(f: Sizing, dvsize: nat, nb: nat)
    requires NoFit(f, nb) && dvsize < nb
    ensures Passed(f, dvsize, nb)
  {}

  lemma ExactBinEmpty(m: Mem, f: Sizing, ms: int, h: Held, sm: Word32, tm: Word32, idx: nat)
    requires BinsHold(m, f, ms, h, sm, tm) && idx + 1 < NSMALLBINS && IsZero(And(Shr(sm, idx), LOW_TWO))
    ensures NoExact(f, 8 * idx)
  {
    hide BinsHold;
    LowTwo(Shr(sm, idx));
    LowBits(sm, idx);
    forall q | q in f ensures f[q] != 8 * idx {
      if IsSmall(f[q]) { SmallIsMarked(m, f, ms, h, sm, tm, q); }
    }
  }

  /** With no small bin from `idx` on in use, and no tree bin either, nothing fits. */
  lemma NothingBinnedFits(m: Mem, f: Sizing, ms: int, h: Held, sm: Word32, tm: Word32, idx: nat)
    requires BinsHold(m, f, ms, h, sm, tm) && idx < NSMALLBINS
    requires IsZero(Shr(sm, idx)) && IsZero(tm)
    ensures NoFit(f, 8 * idx)
  {
    hide BinsHold;
    ShiftedOut(sm, idx);
    forall q | q in f ensures f[q] < 8 * idx {
      if IsSmall(f[q]) {
        SmallIsMarked(m, f, ms, h, sm, tm, q);
      } else {
        LargeInTree(m, f, ms, h, sm, tm, q);
      }
    }
  }

  /** An empty tree map means that no chunk is large. */
  lemma NothingLarge(m: Mem, f: Sizing, ms: int, h: Held, sm: Word32, tm: Word32, nb: nat)
    requires BinsHold(m, f, ms, h, sm, tm) && IsZero(tm) && nb >= MIN_LARGE_SIZE
    ensures NoFit(f, nb)
  {
    hide BinsHold;
    forall q | q in f ensures f[q] < nb {
      if !IsSmall(f[q]) { LargeInTree(m, f, ms, h, sm, tm, q); }
    }
  }

  /** A best large chunk is a best fit when no small chunk fits. */
  lemma LargeIsBest(m: Mem, f: Sizing, ms: int, h: Held, sm: Word32, tm: Word32, idx: nat, v: int)
    requires BinsHold(m, f, ms, h, sm, tm) && idx < NSMALLBINS && IsZero(Shr(sm, idx)) && BestLarge(f, 8 * idx, v)
    ensures BestFit(f, 8 * idx, v)
  {
    hide BinsHold;
    ShiftedOut(sm, idx);
    forall q | q in f && f[q] >= 8 * idx ensures f[v] <= f[q] {
      if IsSmall(f[q]) { SmallIsMarked(m, f, ms, h, sm, tm, q); }
    }
  }
}
