/** The heap invariant: the chunks tile the segments, the boundary tags in memory say so, and the allocator's own
    state and segment records lie in chunks that are in use. */
module HeapMemory {
  import opened Words
  import opened Tries
  import opened Bins
  import opened Heap
  import opened Regions

  /** `sizeof(struct malloc_state)`, padded: the size of the chunk that the state itself lies in. */
  const STATE_SIZE: nat := 944

  /** The layout of the heap, its two special free chunks (`dv` is 0 when there is none), the chunks in use by the
      allocator itself, the regions obtained so far, and where the records of all but the first one are. */
  datatype Space = Space(chunks: Layout, segs: Segments, top: int, dv: int, own: set<int>,
                         regs: seq<Region>, recs: seq<int>)

  /** The segment that `top` lies in. */
  ghost function TopSeg(s: Space): int { if s.top in s.chunks then s.chunks[s.top].seg else 0 }

  ghost predicate DvOk(c: Layout, top: int, dv: int) { dv != 0 ==> dv in c && !c[dv].cin && dv != top }

  /** The allocator's own chunks, among them the last ones of the segments other than that of `top`. */
  ghost predicate OwnOk(c: Layout, g: Segments, top: int, own: set<int>, ms: int) {
    && ms - 16 in own && (forall p :: p in own ==> p in c && c[p].cin) && c[ms - 16].size == STATE_SIZE
    && (forall p :: p in c && p != top && c[p].seg in g && p + c[p].size == g[c[p].seg] ==> p in own)
  }

  /** All segments are in memory, and behind `top` lies the fake chunk that holds the overhead space. */
  ghost predicate Backed(m: Mem, c: Layout, g: Segments, top: int) {
    && (forall f :: f in g ==> Mapped(m, f, g[f] + 16))
    && top in c
    && Mapped(m, top, top + c[top].size + TOP_FOOT_SIZE)
    && HasHead(m, top + c[top].size, TOP_FOOT_SIZE, false, false)
  }

  ghost predicate Shape(s: Space, ms: int) {
    && Tiled(s.chunks, s.segs) && Coalesced(s.chunks) && TopOk(s.chunks, s.segs, s.top)
    && DvOk(s.chunks, s.top, s.dv) && OwnOk(s.chunks, s.segs, s.top, s.own, ms)
  }

  /** The fields of `malloc_state` that hold the first record. */
  ghost predicate Headed(regs: seq<Region>, recs: seq<int>, seg: Region, segNext: int) {
    regs != [] && seg == regs[0] && segNext == if recs == [] then 0 else recs[0]
  }

  /** `least_addr` is a lower bound of all that the allocator manages. */
  ghost predicate SegsAbove(g: Segments, leastAddr: int) { forall f :: f in g ==> leastAddr <= f && g[f] <= TWO64 }

  ghost predicate BinsAbove(f: Sizing, leastAddr: int, ms: int) {
    leastAddr <= ms - 16 && forall p :: p in f ==> leastAddr <= p
  }

  ghost predicate HeapOk(m: Mem, s: Space, ms: int) {
    Shape(s, ms) && Tags(m, s.chunks, s.top) && Backed(m, s.chunks, s.segs, s.top)
  }

  /** What the clients hold: every chunk in use but the allocator's own, with its size. */
  ghost function Live(s: Space): (l: Sizing) {
    map p | p in s.chunks && s.chunks[p].cin && p !in s.own :: s.chunks[p].size
  }

  /** The payload of a chunk runs up to and including the next chunk's first word, its `prev_foot`. */
  predicate InPayload(p: int, size: nat, a: int) { p + 16 <= a <= p + size }

  ghost predicate PayloadKept(m: Mem, m': Mem, l: Sizing) {
    forall p: int, a: int :: p in l && a in m && InPayload(p, l[p], a) ==> a in m' && m'[a] == m[a]
  }

  /** The bins hold all free chunks but `top`, `dv`, and those in `out`. */
  ghost predicate BinnedOk(s: Space, f: Sizing, out: set<int>) {
    && (forall p :: p in f <==> p in s.chunks && !s.chunks[p].cin && p != s.top && p != s.dv && p !in out)
    && (forall p :: p in f ==> f[p] == s.chunks[p].size)
  }

  /** Some free chunks other than `top`, with their sizes. */
  ghost predicate FreeOnes(s: Space, f: Sizing) {
    forall p :: p in f ==> p in s.chunks && !s.chunks[p].cin && p != s.top && f[p] == s.chunks[p].size
  }

  // ----- the heap and the bins -----

  lemma FreeChunk(m: Mem, s: Space, ms: int, p: int)
    requires HeapOk(m, s, ms) && p in s.chunks
    ensures s.chunks[p].seg in s.segs && s.chunks[p].seg <= p && Mapped(m, p, p + s.chunks[p].size + 16)
    ensures p + HEAD in m
    ensures p > 0 && s.chunks[p].size < 0x100_0000_0000 && s.chunks[p].size % 16 == 0 && p % 16 == 0
    ensures HasHead(m, p, s.chunks[p].size, s.chunks[p].cin, s.chunks[p].pin)
    ensures p != s.top ==> s.chunks[p].size >= MIN_CHUNK_SIZE
    ensures !s.chunks[p].cin && p != s.top ==> NumAt(m, p + s.chunks[p].size, s.chunks[p].size)
    ensures !s.chunks[p].cin && p != s.top ==> NextFits(s.chunks, p)
  {
    hide Tiled, NextFits, DvOk, OwnOk, Coalesced;
    NextChunk(s.chunks, s.segs, p);
    assert Tagged(m, s.chunks, s.top, p);
    assert Mapped(m, s.chunks[p].seg, s.segs[s.chunks[p].seg] + 16);
  }

  lemma OwnState(s: Space, ms: int)
    requires Shape(s, ms)
    ensures ms - 16 in s.chunks && s.chunks[ms - 16].cin && s.chunks[ms - 16].size == STATE_SIZE && ms > 16
  {
    hide Tiled, TopOk, Coalesced;
    NextChunk(s.chunks, s.segs, ms - 16);
  }

  lemma ChunksApart(s: Space, ms: int, p: int, q: int)
    requires Shape(s, ms) && p in s.chunks && q in s.chunks && p != q
    ensures p + s.chunks[p].size <= q || q + s.chunks[q].size <= p
  {
    hide ChunkFits, SegmentOk, TopOk, Coalesced;
  }

  /** Free chunks of the heap are chunks that bins can hold. */
  lemma ChunksOf(m: Mem, s: Space, ms: int, f: Sizing)
    requires HeapOk(m, s, ms) && FreeOnes(s, f)
    ensures Chunks(m, f, ms)
  {
    hide Tiled, Backed, Tags, OwnOk, HeapOk, Shape, NextFits;
    StateInMemory(m, s, ms);
    forall p: int, q: int | p in f && q in f && p != q
      ensures p + f[p] <= q || q + f[q] <= p
    {
      HeapShape(m, s, ms);
      ChunksApart(s, ms, p, q);
    }
    forall p | p in f ensures ChunkOk(m, p, f[p], ms) {
      FreeChunk(m, s, ms, p);
      HeapShape(m, s, ms);
      OwnState(s, ms);
      ChunksApart(s, ms, p, ms - 16);
    }
  }

  lemma HeapShape(m: Mem, s: Space, ms: int)
    requires HeapOk(m, s, ms)
    ensures Shape(s, ms) && Tiled(s.chunks, s.segs) && Tags(m, s.chunks, s.top) && TopOk(s.chunks, s.segs, s.top)
    ensures Backed(m, s.chunks, s.segs, s.top)
    ensures Coalesced(s.chunks) && DvOk(s.chunks, s.top, s.dv) && OwnOk(s.chunks, s.segs, s.top, s.own, ms)
  {}

  lemma ShapeOf(m: Mem, s: Space, ms: int)
    requires HeapOk(m, s, ms)
    ensures Shape(s, ms)
  {
    hide Shape;
  }

  lemma StateInMemory(m: Mem, s: Space, ms: int)
    requires HeapOk(m, s, ms)
    ensures ms > 16 && Mapped(m, ms + HEADERS, ms + HEADERS_END)
  {
    hide HeapOk, Shape, NextFits;
    HeapShape(m, s, ms);
    OwnState(s, ms);
    FreeChunk(m, s, ms, ms - 16);
  }

  /** Words that only the bins use lie neither in a boundary tag nor in a live payload. */
  lemma BinWordPlace(m: Mem, s: Space, ms: int, f: Sizing, a: int, p: int)
    requires HeapOk(m, s, ms) && FreeOnes(s, f) && BinWord(f, ms, a) && p in s.chunks
    ensures a != p + HEAD && a != p && a != p + s.chunks[p].size && a != p + s.chunks[p].size + HEAD
    ensures s.chunks[p].cin && p != ms - 16 ==> !InPayload(p, s.chunks[p].size, a)
    ensures p == s.top ==> a < p || p + s.chunks[p].size < a
  {
    hide HeapOk, Shape, NextFits;
    HeapShape(m, s, ms);
    OwnState(s, ms);
    FreeChunk(m, s, ms, p);
    if InHeaders(ms, a) {
      if p != ms - 16 { ChunksApart(s, ms, p, ms - 16); }
    } else {
      var q: int :| q in f && q + FD <= a < q + f[q];
      FreeChunk(m, s, ms, q);
      if p != q { ChunksApart(s, ms, p, q); }
    }
  }

  /** What only the bins write leaves the heap as it is, and all payloads too. */
  lemma HeapUnderBins(m: Mem, m': Mem, s: Space, ms: int, f: Sizing)
    requires HeapOk(m, s, ms) && FreeOnes(s, f) && OnlyBins(m, m', f, ms)
    ensures HeapOk(m', s, ms) && PayloadKept(m, m', Live(s))
  {
    hide HeapOk, Shape, BinWord, NextFits, Mapped;
    HeapShape(m, s, ms);
    forall p | p in s.chunks ensures Tagged(m', s.chunks, s.top, p) {
      FreeChunk(m, s, ms, p);
      TagUnderBins(m, m', s, ms, f, p);
    }
    BackedUnderBins(m, m', s, ms, f);
    forall p: int, a: int | p in Live(s) && a in m && InPayload(p, Live(s)[p], a) ensures a in m' && m'[a] == m[a] {
      if BinWord(f, ms, a) { BinWordPlace(m, s, ms, f, a, p); }
      assert p != ms - 16;
    }
    HeapFrom(m', s, ms);
  }

  lemma HeapFrom(m: Mem, s: Space, ms: int)
    requires Shape(s, ms) && Tags(m, s.chunks, s.top) && Backed(m, s.chunks, s.segs, s.top)
    ensures HeapOk(m, s, ms)
  {}

  lemma TagUnderBins(m: Mem, m': Mem, s: Space, ms: int, f: Sizing, p: int)
    requires HeapOk(m, s, ms) && FreeOnes(s, f) && OnlyBins(m, m', f, ms) && p in s.chunks
    ensures Tagged(m', s.chunks, s.top, p)
  {
    hide HeapOk, Shape, BinWord, NextFits, Mapped;
    FreeChunk(m, s, ms, p);
    if BinWord(f, ms, p + HEAD) { BinWordPlace(m, s, ms, f, p + HEAD, p); }
    if BinWord(f, ms, p + s.chunks[p].size) { BinWordPlace(m, s, ms, f, p + s.chunks[p].size, p); }
  }

  lemma BackedUnderBins(m: Mem, m': Mem, s: Space, ms: int, f: Sizing)
    requires HeapOk(m, s, ms) && FreeOnes(s, f) && OnlyBins(m, m', f, ms)
    ensures Backed(m', s.chunks, s.segs, s.top)
  {
    hide HeapOk, Shape, BinWord, NextFits;
    HeapShape(m, s, ms);
    var a := s.top + s.chunks[s.top].size + HEAD;
    if BinWord(f, ms, a) { BinWordPlace(m, s, ms, f, a, s.top); }
    assert m'.Keys == m.Keys;
    forall f | f in s.segs ensures Mapped(m', f, s.segs[f] + 16) { assert Mapped(m, f, s.segs[f] + 16); }
  }
}
