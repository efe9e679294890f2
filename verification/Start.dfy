/** The heap that a new mspace starts with, and the one it comes back to. */
module Start {
  import opened Words
  import opened BinMap
  import opened TreeIndex
  import opened Rings
  import opened Tries
  import opened TrieMemory
  import opened Bins
  import opened Heap
  import opened HeapMemory
  import opened Freeing
  import opened Regions
  import opened Records
  import opened Bytes

  /** The bases and capacities of `create_mspace_with_base` that are modelled. */
  predicate GoodRegion(base: int, capacity: nat) {
    && base > 0 && base % 16 == 0 && capacity % 16 == 0 && base + capacity <= TWO64
    && STATE_SIZE + TOP_FOOT_SIZE < capacity < 0x100_0000_0000
  }

  /** One chunk for the state, all the rest is `top`. */
  function Initial(base: int, capacity: nat): Space
    requires GoodRegion(base, capacity)
  {
    Space(map[base := Chunk(STATE_SIZE, true, true, base),
              base + STATE_SIZE := Chunk(capacity - STATE_SIZE - TOP_FOOT_SIZE, false, true, base)],
          map[base := base + capacity - TOP_FOOT_SIZE], base + STATE_SIZE, 0, {base},
          [Region(base, capacity, true)], [])
  }

  function NoLists(): (l: seq<seq<int>>)
    ensures |l| == NSMALLBINS && forall i :: 0 <= i < |l| ==> l[i] == []
  {
    seq(NSMALLBINS, i => [])
  }

  function NoTries(): (t: seq<Trie>)
    ensures |t| == NTREEBINS && forall i :: 0 <= i < |t| ==> t[i] == Empty
  {
    seq(NTREEBINS, i => Empty)
  }

  lemma InitialShape(base: int, capacity: nat)
    requires GoodRegion(base, capacity)
    ensures Shape(Initial(base, capacity), base + 16)
  {
    var s := Initial(base, capacity);
    var c, g := s.chunks, s.segs;
    hide Tiled, Coalesced, TopOk, OwnOk;
    assert Tiled(c, g) by { InitialTiled(base, capacity); }
    assert Coalesced(c) && TopOk(c, g, s.top) && OwnOk(c, g, s.top, s.own, base + 16) by {
      InitialChunks(base, capacity);
    }
  }

  lemma InitialTiled(base: int, capacity: nat)
    requires GoodRegion(base, capacity)
    ensures var s := Initial(base, capacity); Tiled(s.chunks, s.segs)
  {}

  lemma InitialChunks(base: int, capacity: nat)
    requires GoodRegion(base, capacity)
    ensures var s := Initial(base, capacity);
      Coalesced(s.chunks) && TopOk(s.chunks, s.segs, s.top) && OwnOk(s.chunks, s.segs, s.top, s.own, base + 16)
  {}

  lemma InitialUse(base: int, capacity: nat)
    requires GoodRegion(base, capacity)
    ensures Live(Initial(base, capacity)) == map[] && BinnedOk(Initial(base, capacity), map[], {})
  {}

  lemma InitialHeap(m: Mem, base: int, capacity: nat)
    requires GoodRegion(base, capacity) && Mapped(m, base, base + capacity)
    requires HasHead(m, base, STATE_SIZE, true, true)
    requires HasHead(m, base + STATE_SIZE, capacity - STATE_SIZE - TOP_FOOT_SIZE, false, true)
    requires HasHead(m, base + capacity - TOP_FOOT_SIZE, TOP_FOOT_SIZE, false, false)
    ensures HeapOk(m, Initial(base, capacity), base + 16) && SegsOk(m, Initial(base, capacity), base + 16)
  {
    hide Shape;
    InitialShape(base, capacity);
    var s := Initial(base, capacity);
    assert s.regs[0].base == base && TopSeg(s) == base;
    assert RegionOk(s.segs, s.regs[0], 32);
  }

  lemma InitialBins(m: Mem, ms: int)
    requires ms > 0 && Mapped(m, ms + HEADERS, ms + HEADERS_END)
    requires forall i :: 0 <= i < NTREEBINS ==> NumAt(m, TreeBinAt(ms, i), 0)
    ensures BinsHold(m, map[], ms, Held(NoLists(), NoTries()), ZERO, ZERO)
  {}

  /** The tree bins lie in what `memset` has cleared. */
  /** Every small bin header is a list of its own. */
  ghost predicate HeadersAlone(m: Mem, ms: int) {
    forall i :: 0 <= i < NSMALLBINS ==> Link(m, SmallBinAt(ms, i), SmallBinAt(ms, i))
  }

  lemma HeadersStay(m: Mem, m': Mem, ms: int)
    requires HeadersAlone(m, ms)
    requires forall a :: a in m && ms + HEADERS <= a < TreeBinAt(ms, 0) ==> a in m' && m'[a] == m[a]
    ensures HeadersAlone(m', ms)
  {
    forall i | 0 <= i < NSMALLBINS ensures Link(m', SmallBinAt(ms, i), SmallBinAt(ms, i)) {
      assert Link(m, SmallBinAt(ms, i), SmallBinAt(ms, i));
    }
  }

  lemma TreeBinsCleared(m: Mem, m': Mem, ms: int)
    requires forall j: nat :: j < STATE_SIZE / 8 ==> NumAt(m, WordAt(ms, j), 0)
    requires forall a :: a in m && TreeBinAt(ms, 0) <= a < ms + HEADERS_END ==> a in m' && m'[a] == m[a]
    ensures forall i :: 0 <= i < NTREEBINS ==> NumAt(m', TreeBinAt(ms, i), 0)
  {
    forall i: nat | i < NTREEBINS ensures NumAt(m', TreeBinAt(ms, i), 0) {
      assert WordAt(ms, 75 + i) == TreeBinAt(ms, i);
    }
  }

  // ----- free space is canonical -----

  /** The chunk at `p` lies in segment `g`. */
  predicate InSegment(s: Space, p: int, g: int) { p in s.chunks && s.chunks[p].seg == g }

  /** `lo` is the start of segment `g` or the end of a chunk in use there. */
  ghost predicate AfterUsed(s: Space, g: int, lo: int) {
    lo == g || exists p :: UsedAt(s, p) && InSegment(s, p, g) && NextOf(s, p) == lo
  }

  /** `hi` is the end of segment `g` or the start of a chunk in use there. */
  ghost predicate BeforeUsed(s: Space, g: int, hi: int) {
    (g in s.segs && hi == s.segs[g]) || (UsedAt(s, hi) && InSegment(s, hi, g))
  }

  /** `[lo, hi)` is a maximal gap between the chunks in use of segment `g`. */
  ghost predicate Gap(s: Space, g: int, lo: int, hi: int) {
    && g in s.segs && g <= lo < hi <= s.segs[g]
    && AfterUsed(s, g, lo) && BeforeUsed(s, g, hi)
    && forall p :: UsedAt(s, p) && InSegment(s, p, g) ==> NextOf(s, p) <= lo || hi <= p
  }

  /** Every free chunk is a maximal gap. */
  lemma FreeIsGap(s: Space, ms: int, p: int)
    requires Shape(s, ms) && FreeAt(s, p)
    ensures Gap(s, s.chunks[p].seg, p, NextOf(s, p))
  {
    hide Shape, NextFits;
    var g := s.chunks[p].seg;
    ShapeFacts(s, ms, p);
    forall q | UsedAt(s, q) ensures NextOf(s, q) <= p || NextOf(s, p) <= q { ChunksApart(s, ms, p, q); }
    assert AfterUsed(s, g, p) by { FreeAfterUsed(s, ms, p); }
    assert BeforeUsed(s, g, NextOf(s, p)) by { FreeBeforeUsed(s, ms, p); }
  }

  lemma ShapeFacts(s: Space, ms: int, p: int)
    requires Shape(s, ms) && p in s.chunks
    ensures s.chunks[p].seg in s.segs && s.chunks[p].seg <= p < NextOf(s, p) <= s.segs[s.chunks[p].seg]
    ensures s.chunks[p].seg in s.chunks && InSegment(s, s.chunks[p].seg, s.chunks[p].seg)
    ensures s.chunks[s.chunks[p].seg].pin
    ensures NextOf(s, p) != s.segs[s.chunks[p].seg] ==> NextFits(s.chunks, p)
  {
    hide TopOk, Coalesced, DvOk, OwnOk, Tiled, NextFits;
    NextChunk(s.chunks, s.segs, p);
  }

  lemma FreeAfterUsed(s: Space, ms: int, p: int)
    requires Shape(s, ms) && FreeAt(s, p)
    ensures AfterUsed(s, s.chunks[p].seg, p)
  {
    hide TopOk, DvOk, OwnOk, Tiled, NextFits;
    if p != s.chunks[p].seg {
      var r := PrevOf(s.chunks, s.segs, p);
      assert UsedAt(s, r) && InSegment(s, r, s.chunks[p].seg) && NextOf(s, r) == p;
    }
  }

  lemma FreeBeforeUsed(s: Space, ms: int, p: int)
    requires Shape(s, ms) && FreeAt(s, p)
    ensures BeforeUsed(s, s.chunks[p].seg, NextOf(s, p))
  {
    hide TopOk, DvOk, OwnOk, Tiled, NextFits;
    NextChunk(s.chunks, s.segs, p);
    if NextOf(s, p) != s.segs[s.chunks[p].seg] {
      NextFacts(s.chunks, p);
    }
  }

  /** Every maximal gap is one free chunk. */
  lemma GapIsFree(s: Space, ms: int, g: int, lo: int, hi: int)
    requires Shape(s, ms) && Gap(s, g, lo, hi)
    ensures FreeAt(s, lo) && NextOf(s, lo) == hi && InSegment(s, lo, g)
  {
    hide Shape, NextFits;
    GapStart(s, ms, g, lo, hi);
    ShapeFacts(s, ms, lo);
    FreeBeforeUsed(s, ms, lo);
    if NextOf(s, lo) > hi {
      ChunksApart(s, ms, lo, hi);
    }
  }

  lemma GapStart(s: Space, ms: int, g: int, lo: int, hi: int)
    requires Shape(s, ms) && Gap(s, g, lo, hi)
    ensures FreeAt(s, lo) && InSegment(s, lo, g)
  {
    hide Shape, NextFits;
    if lo == g {
      SegmentFirst(s, ms, g);
    } else {
      var p :| UsedAt(s, p) && InSegment(s, p, g) && NextOf(s, p) == lo;
      ShapeFacts(s, ms, p);
      NextFacts(s.chunks, p);
    }
    ShapeFacts(s, ms, lo);
  }

  lemma SegmentFirst(s: Space, ms: int, g: int)
    requires Shape(s, ms) && g in s.segs
    ensures InSegment(s, g, g)
  {
    hide TopOk, DvOk, OwnOk, Tiled, Coalesced;
    Segment(s.chunks, s.segs, g);
  }

  /** The free chunks are exactly the maximal gaps. */
  lemma FreeIffGap(s: Space, ms: int, g: int, lo: int, hi: int)
    requires Shape(s, ms)
    ensures FreeAt(s, lo) && InSegment(s, lo, g) && hi == NextOf(s, lo) <==> Gap(s, g, lo, hi)
  {
    if FreeAt(s, lo) && InSegment(s, lo, g) && hi == NextOf(s, lo) { FreeIsGap(s, ms, lo); }
    if Gap(s, g, lo, hi) { GapIsFree(s, ms, g, lo, hi); }
  }

  /** The same chunks are in use. */
  ghost predicate SameUse(s: Space, t: Space) {
    && s.segs == t.segs
    && (forall p :: UsedAt(s, p) <==> UsedAt(t, p))
    && (forall p :: UsedAt(s, p) ==> SizeOf(s, p) == SizeOf(t, p) && s.chunks[p].seg == t.chunks[p].seg)
  }

  lemma SameUseSwap(s: Space, t: Space)
    requires SameUse(s, t)
    ensures SameUse(t, s)
  {}

  lemma SameGaps(s: Space, t: Space, g: int, lo: int, hi: int)
    requires SameUse(s, t) && Gap(s, g, lo, hi)
    ensures Gap(t, g, lo, hi)
  {
    if lo != g {
      var p :| UsedAt(s, p) && InSegment(s, p, g) && NextOf(s, p) == lo;
      assert UsedAt(t, p) && InSegment(t, p, g) && NextOf(t, p) == lo;
    }
    forall p | UsedAt(t, p) && InSegment(t, p, g) ensures NextOf(t, p) <= lo || hi <= p {
      assert UsedAt(s, p) && InSegment(s, p, g);
    }
  }

  lemma SameChunk(s: Space, t: Space, ms: int, p: int)
    requires Shape(s, ms) && Shape(t, ms) && SameUse(s, t) && p in s.chunks
    ensures p in t.chunks && t.chunks[p].size == s.chunks[p].size && t.chunks[p].cin == s.chunks[p].cin
    ensures t.chunks[p].seg == s.chunks[p].seg
  {
    hide Shape, Gap;
    if s.chunks[p].cin {
      assert UsedAt(s, p);
    } else {
      FreeIsGap(s, ms, p);
      SameGaps(s, t, s.chunks[p].seg, p, NextOf(s, p));
      GapIsFree(t, ms, s.chunks[p].seg, p, NextOf(s, p));
    }
  }

  lemma SamePin(s: Space, t: Space, ms: int, p: int)
    requires Shape(s, ms) && Shape(t, ms) && SameUse(s, t) && p in s.chunks && p in t.chunks
    ensures t.chunks[p].pin == s.chunks[p].pin
  {
    hide Shape, SameUse, NextFits, Tiled, TopOk, Coalesced, DvOk, OwnOk;
    SameChunk(s, t, ms, p);
    ShapeFacts(s, ms, p);
    ShapeFacts(t, ms, p);
    if p != s.chunks[p].seg {
      TiledOf(s, ms);
      var r := PrevOf(s.chunks, s.segs, p);
      SameChunk(s, t, ms, r);
      ShapeFacts(t, ms, r);
      SameSegs(s, t);
      ShapeFacts(s, ms, r);
      NextFacts(t.chunks, r);
    }
  }

  lemma TiledOf(s: Space, ms: int)
    requires Shape(s, ms)
    ensures Tiled(s.chunks, s.segs)
  {}

  lemma SameSegs(s: Space, t: Space)
    requires SameUse(s, t)
    ensures s.segs == t.segs
  {}

  /** The layout of the heap, and `top`, are determined by the chunks in use alone. */
  lemma Canonical(s: Space, t: Space, ms: int)
    requires Shape(s, ms) && Shape(t, ms) && SameUse(s, t)
    ensures s.chunks == t.chunks && s.top == t.top
  {
    hide Shape, SameUse;
    SameUseSwap(s, t);
    forall p | p in s.chunks ensures p in t.chunks && t.chunks[p] == s.chunks[p] {
      SameChunk(s, t, ms, p);
      SamePin(s, t, ms, p);
    }
    forall p | p in t.chunks ensures p in s.chunks { SameChunk(t, s, ms, p); }
    SameSegs(s, t);
    SameTop(s, t, ms);
  }

  lemma SameTop(s: Space, t: Space, ms: int)
    requires Shape(s, ms) && Shape(t, ms) && s.chunks == t.chunks && s.segs == t.segs
    ensures s.top == t.top
  {
    hide Tiled, Coalesced, DvOk, OwnOk;
  }

  /** A list of one region says what the segments and the allocator's own chunks are. */
  lemma FirstRegionOnly(m: Mem, s: Space, base: int, capacity: nat)
    requires GoodRegion(base, capacity) && Shape(s, base + 16) && SegsOk(m, s, base + 16)
    requires s.regs == [Region(base, capacity, true)]
    ensures s.segs == Initial(base, capacity).segs && s.own == {base} && s.recs == []
  {
    hide Tiled, Coalesced, TopOk;
    assert RegionsOk(s.segs, TopSeg(s), s.regs);
    assert forall f :: f in s.segs ==> f == base;
    assert OnlyRecords(s, base + 16) && s.recs == [];
    assert forall p :: p in s.own ==> p == base;
  }

  /** With nothing held by clients, the heap is as it was at the start. */
  lemma NothingHeld(s: Space, base: int, capacity: nat)
    requires GoodRegion(base, capacity) && Shape(s, base + 16) && Live(s) == map[]
    requires s.segs == Initial(base, capacity).segs && s.own == {base}
    requires s.regs == Initial(base, capacity).regs && s.recs == []
    ensures s == Initial(base, capacity)
  {
    hide Tiled, TopOk, Coalesced, SameUse;
    var t := Initial(base, capacity);
    InitialShape(base, capacity);
    NoneButOwn(s, base, capacity);
    Canonical(s, t, base + 16);
    assert s.dv == 0;
  }

  lemma NoneButOwn(s: Space, base: int, capacity: nat)
    requires GoodRegion(base, capacity) && Shape(s, base + 16) && Live(s) == map[]
    requires s.segs == Initial(base, capacity).segs && s.own == {base}
    ensures SameUse(s, Initial(base, capacity))
  {
    hide Tiled, TopOk, Coalesced;
    forall p | UsedAt(s, p) ensures p == base { assert p !in Live(s); }
    ShapeFacts(s, base + 16, base);
  }

  /** Bins that hold nothing have clear maps. */
  lemma ClearMaps(m: Mem, ms: int, h: Held, sm: Word32, tm: Word32)
    requires BinsHold(m, map[], ms, h, sm, tm)
    ensures IsZero(sm) && IsZero(tm)
  {
    hide Chunks, At, Ok;
    forall i | 0 <= i < NBITS ensures sm[i] == ZERO[i] && tm[i] == ZERO[i] {
      SmallBinFacts(m, map[], ms, h, sm, tm, i);
      TreeBinFacts(m, map[], ms, h, sm, tm, i);
      if h.small[i] != [] { FirstIn(h.small[i]); }
      if tm[i] { AddrHasSize(h.trees[i], map[], AddrOf(h.trees[i])); }
    }
  }

  lemma NothingBinned(base: int, capacity: nat, f: Sizing)
    requires GoodRegion(base, capacity) && BinnedOk(Initial(base, capacity), f, {})
    ensures f == map[]
  {
    forall p | p in f ensures p in Initial(base, capacity).chunks {}
  }

  lemma HeadersMapped(m: Mem, base: int, capacity: nat)
    requires GoodRegion(base, capacity) && Mapped(m, base, base + capacity)
    ensures Mapped(m, base + 16 + HEADERS, base + 16 + HEADERS_END)
  {}

  lemma FirstIn(l: seq<int>)
    requires l != []
    ensures l[0] in l
  {}

  lemma InitialFields(base: int, capacity: nat)
    requires GoodRegion(base, capacity)
    ensures var s := Initial(base, capacity);
      && s.top == base + STATE_SIZE && s.top in s.chunks
      && s.chunks[s.top].size == capacity - STATE_SIZE - TOP_FOOT_SIZE && s.dv == 0
      && (forall f :: f in s.segs ==> f == base && s.segs[f] == base + capacity - TOP_FOOT_SIZE)
  {}

  /** A new mspace is valid. */
  lemma Created(m: Mem, base: int, capacity: nat, ms: int)
    requires GoodRegion(base, capacity) && ms == base + 16 && Mapped(m, base, base + capacity)
    requires HasHead(m, base, STATE_SIZE, true, true)
    requires HasHead(m, base + STATE_SIZE, capacity - STATE_SIZE - TOP_FOOT_SIZE, false, true)
    requires HasHead(m, base + capacity - TOP_FOOT_SIZE, TOP_FOOT_SIZE, false, false)
    requires forall i :: 0 <= i < NTREEBINS ==> NumAt(m, TreeBinAt(ms, i), 0)
    ensures var s := Initial(base, capacity);
      && HeapOk(m, s, ms) && SegsOk(m, s, ms) && Live(s) == map[] && BinnedOk(s, map[], {})
      && BinsHold(m, map[], ms, Held(NoLists(), NoTries()), ZERO, ZERO)
      && Headed(s.regs, s.recs, Region(base, capacity, true), 0) && SegsAbove(s.segs, base)
      && BinsAbove(map[], base, ms)
      && s.dv == 0 && s.top == base + STATE_SIZE && s.top in s.chunks
      && s.chunks[s.top].size == capacity - STATE_SIZE - TOP_FOOT_SIZE
  {
    hide HeapOk, SegsOk, Live, BinnedOk, BinsHold, Shape, Mapped, HasHead, NoLists, NoTries;
    InitialShape(base, capacity);
    InitialUse(base, capacity);
    InitialFields(base, capacity);
    HeadersMapped(m, base, capacity);
    InitialHeap(m, base, capacity);
    InitialBins(m, ms);
  }
}
