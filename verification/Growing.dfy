/** What a new region of memory does to the heap: it extends `top`, goes before an old segment, or becomes a segment of
    its own. */
module Growing {
  import opened Words
  import opened Rings
  import opened Tries
  import opened BinMap
  import opened Bins
  import opened Heap
  import opened HeapMemory
  import opened HeapEdits
  import opened Freeing
  import opened Clients
  import opened Regions
  import opened Records

  /** Where `top` ends. */
  function TopEndOf(s: Space): int { NextOf(s, s.top) }

  /** Words have changed only in `[tbase, tbase + tsize)`. */
  ghost predicate KeptOutside(m: Mem, m': Mem, tbase: int, tsize: nat) {
    forall a :: a in m ==> a in m' && (a < tbase || a >= tbase + tsize ==> m'[a] == m[a])
  }

  /** Words have changed only there and behind `top` in its region. */
  ghost predicate KeptButTop(m: Mem, m': Mem, s: Space, tbase: int, tsize: nat) {
    && (forall a :: a in m ==> a in m')
    && forall a :: a in m && (a <= s.top || a >= TopEndOf(s) + TOP_FOOT_SIZE) && (a < tbase || a >= tbase + tsize) ==>
         m'[a] == m[a]
  }

  // ----- where other chunks are -----

  lemma RecordOf(g: Segments, topSeg: int, r: seq<Region>, f: int) returns (i: nat)
    requires RegionsOk(g, topSeg, r) && f in g
    ensures i < |r| && r[i].base == f && r[i].size < 0x100_0000_0000 && f < g[f] && g[f] + 32 <= f + r[i].size
    ensures (i == 0 <==> f == topSeg)
    ensures i == 0 ==> g[f] + TOP_FOOT_SIZE == f + r[i].size
    ensures i > 0 ==> RegionsApart(r[0], r[i])
  {
    i :| 0 <= i < |r| && r[i].base == f;
    assert RegionOk(g, r[i], 32);
    assert RegionOk(g, r[0], 32);
    if i > 0 { assert RegionsApart(r[0], r[i]); }
  }

  /** Every other chunk ends where `top` starts, or before, or lies behind the region of `top`. */
  lemma Elsewhere(s: Space, ms: int, p: int)
    requires Shape(s, ms) && RegionsOk(s.segs, TopSeg(s), s.regs) && p in s.chunks && p != s.top
    ensures NextOf(s, p) <= s.top || p >= TopEndOf(s) + TOP_FOOT_SIZE
    ensures p > 0 && SizeOf(s, p) >= MIN_CHUNK_SIZE
  {
    hide Shape, RegionsOk, Granular;
    InItsSegment(s, ms, p);
    EndOfTop(s, ms);
    InItsSegment(s, ms, s.top);
    ChunksApart(s, ms, p, s.top);
    var i := RecordOf(s.segs, TopSeg(s), s.regs, s.chunks[p].seg);
    var j := RecordOf(s.segs, TopSeg(s), s.regs, TopSeg(s));
  }

  lemma InItsSegment(s: Space, ms: int, p: int)
    requires Shape(s, ms) && p in s.chunks
    ensures s.chunks[p].seg in s.segs && 0 < s.chunks[p].seg <= p < NextOf(s, p) <= s.segs[s.chunks[p].seg]
    ensures p != s.top ==> SizeOf(s, p) >= MIN_CHUNK_SIZE
  {
    hide Tiled, Coalesced, DvOk, OwnOk, NextFits, Granular;
    NextChunk(s.chunks, s.segs, p);
    Positive(s, ms, s.chunks[p].seg);
  }

  /** Where `top` and the end of its region are. */
  ghost predicate TopBounds(s: Space) {
    var f, e := TopSeg(s), TopEndOf(s);
    && s.top in s.chunks && !s.chunks[s.top].cin && s.chunks[s.top].pin && f in s.segs && s.segs[f] == e
    && e !in s.chunks
    && 0 < f <= s.top < e && s.top % 16 == 0 && SizeOf(s, s.top) % 16 == 0 && e % 16 == 0 && SizeOf(s, s.top) >= 16
    && s.regs != [] && s.regs[0].base == f && e + TOP_FOOT_SIZE == f + s.regs[0].size
    && s.regs[0].size < 0x100_0000_0000 && f + s.regs[0].size <= TWO64
  }

  lemma TopBoundsHold(s: Space, ms: int)
    requires Shape(s, ms) && RegionsOk(s.segs, TopSeg(s), s.regs)
    ensures TopBounds(s)
  {
    hide Shape, RegionsOk, Granular;
    EndOfTop(s, ms);
    InItsSegment(s, ms, s.top);
    ShapeAligned(s, ms, s.top);
    TopPin(s, ms);
    var i := RecordOf(s.segs, TopSeg(s), s.regs, TopSeg(s));
    FirstRecord(s.segs, TopSeg(s), s.regs);
  }

  lemma TopPin(s: Space, ms: int)
    requires Shape(s, ms) && s.top in s.chunks
    ensures !s.chunks[s.top].cin && s.chunks[s.top].pin
  {
    hide Tiled, DvOk, OwnOk, Granular;
  }

  lemma FirstRecord(g: Segments, topSeg: int, r: seq<Region>)
    requires RegionsOk(g, topSeg, r)
    ensures r != [] && r[0].base == topSeg && topSeg in g && g[topSeg] + TOP_FOOT_SIZE == r[0].base + r[0].size <= TWO64
    ensures r[0].size < 0x100_0000_0000
  {
    assert RegionOk(g, r[0], 32);
  }

  /** A segment other than that of `top` lies apart from the region of `top`, and every one apart from a new region. */
  lemma SegmentPlace(s: Space, ms: int, tbase: int, tsize: nat, f: int)
    requires Shape(s, ms) && RegionsOk(s.segs, TopSeg(s), s.regs) && NewRegion(s.regs, tbase, tsize) && f in s.segs
    ensures f != TopSeg(s) ==> s.segs[f] + 32 <= TopSeg(s) || f >= TopEndOf(s) + TOP_FOOT_SIZE
    ensures s.segs[f] + 32 <= tbase || f >= tbase + tsize
    ensures TopEndOf(s) + TOP_FOOT_SIZE <= tbase || TopSeg(s) >= tbase + tsize
  {
    hide Shape, RegionsOk, Granular;
    TopBoundsHold(s, ms);
    var i := RecordOf(s.segs, TopSeg(s), s.regs, f);
    assert RegionsApart(s.regs[i], Region(tbase, tsize, false)) && RegionsApart(s.regs[0], Region(tbase, tsize, false));
  }

  /** The same of chunks. */
  lemma ChunkPlace(s: Space, ms: int, tbase: int, tsize: nat, p: int)
    requires Shape(s, ms) && RegionsOk(s.segs, TopSeg(s), s.regs) && NewRegion(s.regs, tbase, tsize) && p in s.chunks
    ensures s.chunks[p].seg in s.segs && s.chunks[p].seg <= p < NextOf(s, p) <= s.segs[s.chunks[p].seg]
    ensures NextOf(s, p) + 32 <= tbase || p >= tbase + tsize
    ensures p != s.top ==> NextOf(s, p) <= s.top || p >= TopEndOf(s) + TOP_FOOT_SIZE
    ensures p != s.top && s.chunks[p].seg == TopSeg(s) ==> NextOf(s, p) <= s.top
  {
    hide Shape, RegionsOk, Granular;
    InItsSegment(s, ms, p);
    SegmentPlace(s, ms, tbase, tsize, s.chunks[p].seg);
    TopBoundsHold(s, ms);
    if p != s.top { Elsewhere(s, ms, p); }
  }

  /** `top` lies in the first region. */
  lemma TopHeld(s: Space, ms: int)
    requires Shape(s, ms) && RegionsOk(s.segs, TopSeg(s), s.regs)
    ensures s.regs != [] && SegmentHolds(s.regs[0], s.top)
    ensures forall i :: 0 < i < |s.regs| ==> !SegmentHolds(s.regs[i], s.top)
  {
    hide Shape;
    TopBoundsHold(s, ms);
    forall i | 0 < i < |s.regs| ensures !SegmentHolds(s.regs[i], s.top) { assert RegionsApart(s.regs[0], s.regs[i]); }
  }

  // ----- what stays in any case -----

  /** The words of chunks other than `top`: head, first word behind, and all that lies between. */
  lemma ChunkWordKept(m: Mem, m': Mem, s: Space, ms: int, tbase: int, tsize: nat, p: int, a: int)
    requires HeapOk(m, s, ms) && RegionsOk(s.segs, TopSeg(s), s.regs) && NewRegion(s.regs, tbase, tsize)
    requires KeptButTop(m, m', s, tbase, tsize) && p in s.chunks && p != s.top
    requires p + HEAD <= a <= NextOf(s, p) && a in m
    ensures a in m' && m'[a] == m[a]
  {
    hide HeapOk, Shape, RegionsOk, Granular;
    ShapeOf(m, s, ms);
    ChunkPlace(s, ms, tbase, tsize, p);
  }

  lemma OtherTagKept(m: Mem, m': Mem, s: Space, ms: int, tbase: int, tsize: nat, p: int)
    requires HeapOk(m, s, ms) && RegionsOk(s.segs, TopSeg(s), s.regs) && NewRegion(s.regs, tbase, tsize)
    requires KeptButTop(m, m', s, tbase, tsize) && p in s.chunks && p != s.top
    ensures Tagged(m', s.chunks, s.top, p)
  {
    hide HeapOk, Shape, RegionsOk, NewRegion, KeptButTop, NextFits, Granular;
    FreeChunk(m, s, ms, p);
    ChunkWordKept(m, m', s, ms, tbase, tsize, p, p + HEAD);
    if !s.chunks[p].cin { ChunkWordKept(m, m', s, ms, tbase, tsize, p, NextOf(s, p)); }
  }

  lemma PayloadsKept(m: Mem, m': Mem, s: Space, ms: int, tbase: int, tsize: nat)
    requires HeapOk(m, s, ms) && RegionsOk(s.segs, TopSeg(s), s.regs) && NewRegion(s.regs, tbase, tsize)
    requires KeptButTop(m, m', s, tbase, tsize)
    ensures PayloadKept(m, m', Live(s))
  {
    hide HeapOk, Shape, RegionsOk, NewRegion, KeptButTop, UsedPlace, Granular;
    forall p: int, a: int | p in Live(s) && a in m && InPayload(p, Live(s)[p], a) ensures a in m' && m'[a] == m[a] {
      UsedFacts(m, s, ms, p);
      UsedIn(m, s, p);
      LiveNotTop(s, ms, p) by { ShapeOf(m, s, ms); }
      ChunkWordKept(m, m', s, ms, tbase, tsize, p, a);
    }
  }

  lemma LiveNotTop(s: Space, ms: int, p: int)
    requires Shape(s, ms) && p in Live(s)
    ensures p != s.top && p in s.chunks && Live(s)[p] == SizeOf(s, p)
  {
    hide Tiled, Coalesced, DvOk, OwnOk, Granular;
  }

  lemma BinWordSame(m: Mem, m': Mem, s: Space, ms: int, tbase: int, tsize: nat, f: Sizing, a: int)
    requires HeapOk(m, s, ms) && RegionsOk(s.segs, TopSeg(s), s.regs) && NewRegion(s.regs, tbase, tsize)
    requires KeptButTop(m, m', s, tbase, tsize) && FreeOnes(s, f) && BinWord(f, ms, a)
    ensures SameWord(m, m', a)
  {
    hide HeapOk, Shape, RegionsOk, NewRegion, KeptButTop, NextFits, Granular;
    ShapeOf(m, s, ms);
    OwnState(s, ms);
    DvInside(s, ms);
    if InHeaders(ms, a) {
      if a in m { ChunkWordKept(m, m', s, ms, tbase, tsize, ms - 16, a); }
      StateInMemory(m, s, ms);
    } else {
      var q: int :| q in f && q + FD <= a < q + f[q];
      FreeChunk(m, s, ms, q);
      ChunkWordKept(m, m', s, ms, tbase, tsize, q, a);
    }
  }

  /** Whatever became of `top`, the bins hold what they held. */
  lemma BinsStay(m: Mem, m': Mem, s: Space, ms: int, tbase: int, tsize: nat, s': Space, f: Sizing, h: Held, sm: Word32,
      tm: Word32)
    requires HeapOk(m, s, ms) && RegionsOk(s.segs, TopSeg(s), s.regs) && NewRegion(s.regs, tbase, tsize)
    requires KeptButTop(m, m', s, tbase, tsize) && FreeOnes(s, f)
    requires HeapOk(m', s', ms) && FreeOnes(s', f) && BinsHold(m, f, ms, h, sm, tm)
    ensures BinsHold(m', f, ms, h, sm, tm)
  {
    hide HeapOk, BinsHold, RegionsOk, KeptButTop, BinWord, FreeOnes, Granular;
    ChunksOf(m', s', ms, f);
    forall a | BinWord(f, ms, a) ensures SameWord(m, m', a) { BinWordSame(m, m', s, ms, tbase, tsize, f, a); }
    BinsUnder(m, m', f, ms, h, sm, tm);
  }

  /** No record lies behind `top` in its region, or in a new region. */
  lemma RecordsButTop(m: Mem, m': Mem, s: Space, ms: int, tbase: int, tsize: nat)
    requires Shape(s, ms) && RecordsPlaced(s, ms) && NewRegion(s.regs, tbase, tsize)
    requires KeptButTop(m, m', s, tbase, tsize)
    ensures RecordsSame(m, m', s)
  {
    hide Shape, RecordsPlaced, RegionsOk, Granular;
    PlacedRegions(s, ms);
    TopBoundsHold(s, ms);
    forall k: nat, a: int | k < |s.recs| && RecordWord(s, k, a) && a in m ensures a in m' && m'[a] == m[a] {
      PlacedRecord(s, ms, k);
      RecordInRegion(s, ms, k, a);
      TwoRegions(s.segs, TopSeg(s), s.regs, 0, k + 1);
      assert RegionsApart(s.regs[k + 1], Region(tbase, tsize, false));
    }
  }

  lemma RecordInRegion(s: Space, ms: int, k: nat, a: int)
    requires Shape(s, ms) && RecordsPlaced(s, ms) && k < |s.recs| && k + 1 < |s.regs| && RecordWord(s, k, a)
    ensures s.regs[k + 1].base <= a < EndOf(s.regs[k + 1])
  {
    hide Shape, RecordsPlaced, RegionsOk, Granular;
    PlacedRecord(s, ms, k);
    ChunkInSegment(s, ms, s.recs[k] - 16);
  }

  // ----- a segment of its own -----

  /** Where the record of the old segment goes: behind what is left of `top`, or in its place when that is too small. */
  function RecordPlace(s: Space): int { if SizeOf(s, s.top) < MIN_CHUNK_SIZE then s.top else TopEndOf(s) }

  /** The old segment ends with its record; what is left of `top` is an ordinary free chunk. */
  function Closed(s: Space): Layout
    requires s.top in s.chunks
  {
    var p := RecordPlace(s);
    s.chunks[p := Chunk(RECORD_SIZE, true, p == s.top && s.chunks[s.top].pin, s.chunks[s.top].seg)]
  }

  function AddedSpace(s: Space, tbase: int, tsize: nat): Space
    requires s.top in s.chunks && tsize > TOP_FOOT_SIZE
  {
    Space(Closed(s)[tbase := Chunk(tsize - TOP_FOOT_SIZE, false, true, tbase)],
          s.segs[s.chunks[s.top].seg := RecordPlace(s) + RECORD_SIZE][tbase := tbase + tsize - TOP_FOOT_SIZE],
          tbase, s.dv, s.own + {RecordPlace(s)}, [Region(tbase, tsize, false)] + s.regs, [RecordPlace(s) + 16] + s.recs)
  }

  lemma AddedDisjoint(s: Space, ms: int, tbase: int, tsize: nat)
    requires Shape(s, ms) && RegionsOk(s.segs, TopSeg(s), s.regs) && NewRegion(s.regs, tbase, tsize)
    requires s.top in s.chunks
    ensures Disjoint(AddedSpace(s, tbase, tsize).chunks)
  {
    hide Shape, RegionsOk, Granular;
    TopBoundsHold(s, ms);
    SegmentPlace(s, ms, tbase, tsize, TopSeg(s));
    var d := AddedSpace(s, tbase, tsize).chunks;
    forall p: int, q: int | p in d && q in d && p < q ensures p + d[p].size <= q {
      if p in s.chunks { ChunkPlace(s, ms, tbase, tsize, p); }
      if q in s.chunks { ChunkPlace(s, ms, tbase, tsize, q); }
      if p in s.chunks && q in s.chunks { ChunksApart(s, ms, p, q); }
    }
  }

  /** What the shape says of one chunk other than `top`. */
  ghost predicate OtherChunk(s: Space, p: int)
    requires p in s.chunks && s.chunks[p].seg in s.segs
  {
    && p % 16 == 0 && SizeOf(s, p) % 16 == 0 && SizeOf(s, p) >= MIN_CHUNK_SIZE
    && (NextOf(s, p) == s.segs[s.chunks[p].seg] || NextFits(s.chunks, p))
    && (!s.chunks[p].cin ==> s.chunks[p].pin && NextOf(s, p) != s.segs[s.chunks[p].seg])
    && (NextOf(s, p) == s.segs[s.chunks[p].seg] ==> p in s.own)
  }

  lemma OtherFacts(s: Space, ms: int, p: int)
    requires Shape(s, ms) && p in s.chunks && p != s.top
    ensures s.chunks[p].seg in s.segs && OtherChunk(s, p)
  {
    hide Tiled, NextFits, DvOk, Granular;
    NextChunk(s.chunks, s.segs, p);
  }

  lemma AddedFits(s: Space, ms: int, tbase: int, tsize: nat, p: int)
    requires Shape(s, ms) && RegionsOk(s.segs, TopSeg(s), s.regs) && NewRegion(s.regs, tbase, tsize)
    requires s.top in s.chunks
    requires p in AddedSpace(s, tbase, tsize).chunks
    ensures var s' := AddedSpace(s, tbase, tsize); ChunkFits(s'.chunks, s'.segs, p)
  {
    hide Shape, RegionsOk, Granular;
    TopBoundsHold(s, ms);
    SegmentPlace(s, ms, tbase, tsize, TopSeg(s));
    if p in s.chunks && p != s.top {
      ChunkPlace(s, ms, tbase, tsize, p);
      OtherFacts(s, ms, p);
      SegmentPlace(s, ms, tbase, tsize, s.chunks[p].seg);
    }
  }

  lemma AddedSegment(s: Space, ms: int, tbase: int, tsize: nat, f: int)
    requires Shape(s, ms) && RegionsOk(s.segs, TopSeg(s), s.regs) && NewRegion(s.regs, tbase, tsize)
    requires s.top in s.chunks
    requires f in AddedSpace(s, tbase, tsize).segs
    ensures var s' := AddedSpace(s, tbase, tsize); SegmentOk(s'.chunks, s'.segs, f)
  {
    hide Shape, RegionsOk, Granular;
    TopBoundsHold(s, ms);
    SegmentPlace(s, ms, tbase, tsize, TopSeg(s));
    var e := AddedSpace(s, tbase, tsize).segs[f];
    if f in s.segs {
      SegmentOf(s, ms, f);
      SegmentPlace(s, ms, tbase, tsize, f);
    }
    if e in s.chunks { ChunkPlace(s, ms, tbase, tsize, e); }
  }

  lemma SegmentOf(s: Space, ms: int, f: int)
    requires Shape(s, ms) && f in s.segs
    ensures SegmentOk(s.chunks, s.segs, f) && f < s.segs[f]
  {
    hide Coalesced, DvOk, OwnOk, TopOk, Tiled, NextFits, Granular;
    Segment(s.chunks, s.segs, f);
    NextChunk(s.chunks, s.segs, f);
  }

  lemma AddedTiled(s: Space, ms: int, tbase: int, tsize: nat)
    requires Shape(s, ms) && RegionsOk(s.segs, TopSeg(s), s.regs) && NewRegion(s.regs, tbase, tsize)
    requires s.top in s.chunks
    ensures var s' := AddedSpace(s, tbase, tsize); Tiled(s'.chunks, s'.segs)
  {
    hide Shape, RegionsOk, AddedSpace, ChunkFits, SegmentOk, Disjoint, Granular;
    AddedDisjoint(s, ms, tbase, tsize);
    var s' := AddedSpace(s, tbase, tsize);
    forall p | p in s'.chunks ensures ChunkFits(s'.chunks, s'.segs, p) { AddedFits(s, ms, tbase, tsize, p); }
    forall f | f in s'.segs ensures SegmentOk(s'.chunks, s'.segs, f) { AddedSegment(s, ms, tbase, tsize, f); }
  }

  lemma AddedShape(s: Space, ms: int, tbase: int, tsize: nat)
    requires Shape(s, ms) && RegionsOk(s.segs, TopSeg(s), s.regs) && NewRegion(s.regs, tbase, tsize)
    requires s.top in s.chunks
    ensures Shape(AddedSpace(s, tbase, tsize), ms)
  {
    hide RegionsOk, Tiled, Shape, NextFits, Granular;
    AddedTiled(s, ms, tbase, tsize);
    AddedTop(s, ms, tbase, tsize);
    AddedOwn(s, ms, tbase, tsize);
    ShapeFrom(AddedSpace(s, tbase, tsize), ms);
  }

  lemma ShapeFrom(s: Space, ms: int)
    requires Tiled(s.chunks, s.segs) && Coalesced(s.chunks) && TopOk(s.chunks, s.segs, s.top)
    requires DvOk(s.chunks, s.top, s.dv) && OwnOk(s.chunks, s.segs, s.top, s.own, ms)
    ensures Shape(s, ms)
  {}

  lemma AddedTop(s: Space, ms: int, tbase: int, tsize: nat)
    requires Shape(s, ms) && RegionsOk(s.segs, TopSeg(s), s.regs) && NewRegion(s.regs, tbase, tsize)
    requires s.top in s.chunks
    ensures var s' := AddedSpace(s, tbase, tsize);
      TopOk(s'.chunks, s'.segs, tbase) && Coalesced(s'.chunks) && DvOk(s'.chunks, tbase, s.dv)
  {
    hide Shape, RegionsOk, NextFits, Granular;
    TopBoundsHold(s, ms);
    SegmentPlace(s, ms, tbase, tsize, TopSeg(s));
    DvInside(s, ms);
    if s.dv != 0 { ChunkPlace(s, ms, tbase, tsize, s.dv); }
    var s' := AddedSpace(s, tbase, tsize);
    forall p | p in s'.chunks && p != tbase
      ensures s'.chunks[p].size >= MIN_CHUNK_SIZE
      ensures !s'.chunks[p].cin ==>
        s'.chunks[p].pin && s'.chunks[p].seg in s'.segs && p + s'.chunks[p].size != s'.segs[s'.chunks[p].seg]
    {
      if p in s.chunks && p != s.top {
        ChunkPlace(s, ms, tbase, tsize, p);
        OtherFacts(s, ms, p);
        SegmentPlace(s, ms, tbase, tsize, s.chunks[p].seg);
      }
    }
  }

  lemma AddedOwn(s: Space, ms: int, tbase: int, tsize: nat)
    requires Shape(s, ms) && RegionsOk(s.segs, TopSeg(s), s.regs) && NewRegion(s.regs, tbase, tsize)
    requires s.top in s.chunks
    ensures var s' := AddedSpace(s, tbase, tsize); OwnOk(s'.chunks, s'.segs, tbase, s'.own, ms)
  {
    hide Shape, RegionsOk, NextFits, Granular;
    TopBoundsHold(s, ms);
    SegmentPlace(s, ms, tbase, tsize, TopSeg(s));
    OwnState(s, ms);
    var s' := AddedSpace(s, tbase, tsize);
    forall p | p in s'.own ensures p in s'.chunks && s'.chunks[p].cin {
      if p in s.own { OwnIn(s, ms, p); ChunkPlace(s, ms, tbase, tsize, p); }
    }
    ChunkPlace(s, ms, tbase, tsize, ms - 16);
    forall p | p in s'.chunks && p != tbase && s'.chunks[p].seg in s'.segs
               && p + s'.chunks[p].size == s'.segs[s'.chunks[p].seg]
      ensures p in s'.own
    {
      if p in s.chunks && p != s.top {
        ChunkPlace(s, ms, tbase, tsize, p);
        OtherFacts(s, ms, p);
        SegmentPlace(s, ms, tbase, tsize, s.chunks[p].seg);
      }
    }
    StateOwn(s, ms);
  }

  lemma OwnIn(s: Space, ms: int, p: int)
    requires Shape(s, ms) && p in s.own
    ensures p in s.chunks && s.chunks[p].cin && p != s.top
  {
    hide Tiled, Coalesced, DvOk, Granular;
  }

  lemma StateOwn(s: Space, ms: int)
    requires Shape(s, ms)
    ensures ms - 16 in s.own
  {
    hide Tiled, Coalesced, DvOk, TopOk, Granular;
  }

  /** The tags that make the old segment end with its record and the new region a segment. */
  ghost predicate AddedTagged(m: Mem, s: Space, tbase: int, tsize: nat) {
    var p := RecordPlace(s);
    && HasHead(m, p, RECORD_SIZE, true, p == s.top)
    && (p != s.top ==> HasHead(m, s.top, SizeOf(s, s.top), false, true) && NumAt(m, p, SizeOf(s, s.top)))
    && tsize > TOP_FOOT_SIZE && HasHead(m, tbase, tsize - TOP_FOOT_SIZE, false, true)
    && HasHead(m, tbase + tsize - TOP_FOOT_SIZE, TOP_FOOT_SIZE, false, false) && Mapped(m, tbase, tbase + tsize)
  }

  lemma AddedTag(m: Mem, m': Mem, s: Space, ms: int, tbase: int, tsize: nat, p: int)
    requires HeapOk(m, s, ms) && RegionsOk(s.segs, TopSeg(s), s.regs) && NewRegion(s.regs, tbase, tsize)
    requires s.top in s.chunks
    requires KeptButTop(m, m', s, tbase, tsize) && AddedTagged(m', s, tbase, tsize)
    requires p in AddedSpace(s, tbase, tsize).chunks
    ensures Tagged(m', AddedSpace(s, tbase, tsize).chunks, tbase, p)
  {
    hide HeapOk, Shape, RegionsOk, KeptButTop, NextFits, NewRegion, Granular;
    ShapeOf(m, s, ms);
    TopBoundsHold(s, ms);
    SegmentPlace(s, ms, tbase, tsize, TopSeg(s));
    if p in s.chunks && p != s.top {
      OtherTagKept(m, m', s, ms, tbase, tsize, p);
      ChunkPlace(s, ms, tbase, tsize, p);
      NewRegionSize(s.regs, tbase, tsize);
    }
  }

  lemma NewRegionSize(r: seq<Region>, tbase: int, tsize: nat)
    requires NewRegion(r, tbase, tsize)
    ensures tsize >= GRANULARITY && tbase + tsize <= TWO64
  {}

  lemma AddedBacked(m: Mem, m': Mem, s: Space, ms: int, tbase: int, tsize: nat)
    requires HeapOk(m, s, ms) && RegionsOk(s.segs, TopSeg(s), s.regs) && NewRegion(s.regs, tbase, tsize)
    requires s.top in s.chunks
    requires KeptButTop(m, m', s, tbase, tsize) && AddedTagged(m', s, tbase, tsize)
    ensures var s' := AddedSpace(s, tbase, tsize); Backed(m', s'.chunks, s'.segs, tbase)
  {
    hide HeapOk, Shape, RegionsOk, NextFits, Tiled, Tags, Coalesced, TopOk, OwnOk, DvOk, Granular;
    HeapShape(m, s, ms);
    TopBoundsHold(s, ms);
    var s' := AddedSpace(s, tbase, tsize);
    forall f | f in s'.segs ensures Mapped(m', f, s'.segs[f] + 16) {
      if f in s.segs { assert Mapped(m, f, s.segs[f] + 16); }
    }
  }

  /** The heap with a new segment: the old one is closed, and `top` is the new one. */
  lemma AddedHeap(m: Mem, m': Mem, s: Space, ms: int, tbase: int, tsize: nat)
    requires HeapOk(m, s, ms) && RegionsOk(s.segs, TopSeg(s), s.regs) && NewRegion(s.regs, tbase, tsize)
    requires s.top in s.chunks
    requires KeptButTop(m, m', s, tbase, tsize) && AddedTagged(m', s, tbase, tsize)
    ensures HeapOk(m', AddedSpace(s, tbase, tsize), ms)
  {
    hide HeapOk, Shape, RegionsOk, KeptButTop, AddedTagged, Tagged, Backed, Closed, Granular;
    ShapeOf(m, s, ms);
    var s' := AddedSpace(s, tbase, tsize);
    AddedShape(s, ms, tbase, tsize);
    AddedBacked(m, m', s, ms, tbase, tsize);
    forall p | p in s'.chunks ensures Tagged(m', s'.chunks, tbase, p) { AddedTag(m, m', s, ms, tbase, tsize, p); }
    HeapFrom(m', s', ms);
  }

  /** What is left of `top` has yet to go into a bin. */
  ghost function LeftOut(s: Space): set<int> { if RecordPlace(s) == s.top then {} else {s.top} }

  lemma AddedBinned(s: Space, ms: int, tbase: int, tsize: nat, f: Sizing)
    requires Shape(s, ms) && RegionsOk(s.segs, TopSeg(s), s.regs) && NewRegion(s.regs, tbase, tsize)
    requires s.top in s.chunks && BinnedOk(s, f, {})
    ensures BinnedOk(AddedSpace(s, tbase, tsize), f, LeftOut(s)) && Live(AddedSpace(s, tbase, tsize)) == Live(s)
  {
    hide Shape, RegionsOk, Granular;
    TopBoundsHold(s, ms);
    SegmentPlace(s, ms, tbase, tsize, TopSeg(s));
    var s' := AddedSpace(s, tbase, tsize);
    assert tbase !in s.chunks by { if tbase in s.chunks { ChunkPlace(s, ms, tbase, tsize, tbase); } }
    assert RecordPlace(s) != tbase;
    DvInside(s, ms);
    forall p ensures p in f <==> p in s'.chunks && !s'.chunks[p].cin && p != tbase && p != s.dv && p !in LeftOut(s) {}
    forall p ensures p in Live(s') <==> p in Live(s) {}
  }

  lemma RegionStillOk(s: Space, ms: int, tbase: int, tsize: nat, i: nat)
    requires Shape(s, ms) && RegionsOk(s.segs, TopSeg(s), s.regs) && NewRegion(s.regs, tbase, tsize)
    requires s.top in s.chunks && i < |s.regs|
    ensures RegionOk(AddedSpace(s, tbase, tsize).segs, s.regs[i], 32)
  {
    hide Shape, Granular;
    assert RegionOk(s.segs, s.regs[i], 32);
    TopBoundsHold(s, ms);
    SegmentPlace(s, ms, tbase, tsize, s.regs[i].base);
    SegmentPlace(s, ms, tbase, tsize, TopSeg(s));
  }

  lemma AddedCovers(s: Space, tbase: int, tsize: nat, f: int)
    requires RegionsOk(s.segs, TopSeg(s), s.regs) && s.top in s.chunks && tsize > TOP_FOOT_SIZE
    requires f in AddedSpace(s, tbase, tsize).segs
    ensures var r' := AddedSpace(s, tbase, tsize).regs; exists i :: 0 <= i < |r'| && r'[i].base == f
  {
    hide RegionOk, RegionsApart;
    var r' := AddedSpace(s, tbase, tsize).regs;
    if f == tbase {
      assert r'[0].base == f;
    } else {
      var i :| 0 <= i < |s.regs| && s.regs[i].base == f;
      assert r'[i + 1].base == f;
    }
  }

  lemma AddedRegions(s: Space, ms: int, tbase: int, tsize: nat)
    requires Shape(s, ms) && RegionsOk(s.segs, TopSeg(s), s.regs) && NewRegion(s.regs, tbase, tsize)
    requires s.top in s.chunks
    ensures var s' := AddedSpace(s, tbase, tsize); RegionsOk(s'.segs, TopSeg(s'), s'.regs)
  {
    hide Shape, Granular;
    var s' := AddedSpace(s, tbase, tsize);
    var r' := s'.regs;
    TopBoundsHold(s, ms);
    SegmentPlace(s, ms, tbase, tsize, TopSeg(s));
    forall i | 0 < i < |r'| ensures RegionOk(s'.segs, r'[i], 32) { RegionStillOk(s, ms, tbase, tsize, i - 1); }
    forall f | f in s'.segs ensures exists i :: 0 <= i < |r'| && r'[i].base == f { AddedCovers(s, tbase, tsize, f); }
  }

  lemma AddedPlaced(s: Space, ms: int, tbase: int, tsize: nat)
    requires Shape(s, ms) && RecordsPlaced(s, ms) && NewRegion(s.regs, tbase, tsize) && s.top in s.chunks
    ensures RecordsPlaced(AddedSpace(s, tbase, tsize), ms)
  {
    hide Shape, RecordsPlaced, RegionsOk, NewRegion, Granular, RecordChunk, AddedSpace, OnlyRecords;
    PlacedRegions(s, ms);
    NewRegionSize(s.regs, tbase, tsize);
    var s' := AddedSpace(s, tbase, tsize);
    AddedRegions(s, ms, tbase, tsize);
    AddedLists(s, tbase, tsize);
    AddedOnly(s, ms, tbase, tsize);
    forall k | 0 <= k < |s'.recs| ensures RecordChunk(s', ms, k) {
      if k == 0 { FirstRecordChunk(s, ms, tbase, tsize); } else { OldRecordChunk(s, ms, tbase, tsize, k - 1); }
    }
    PlacedFrom(s', ms);
  }

  lemma PlacedFrom(s: Space, ms: int)
    requires RegionsOk(s.segs, TopSeg(s), s.regs) && |s.recs| + 1 == |s.regs| && OnlyRecords(s, ms)
    requires forall k :: 0 <= k < |s.recs| ==> RecordChunk(s, ms, k)
    ensures RecordsPlaced(s, ms)
  {
    hide RegionsOk, RecordChunk, OnlyRecords;
  }

  lemma AddedOnly(s: Space, ms: int, tbase: int, tsize: nat)
    requires RecordsPlaced(s, ms) && s.top in s.chunks && tsize > TOP_FOOT_SIZE
    ensures OnlyRecords(AddedSpace(s, tbase, tsize), ms)
  {
    hide RegionsOk, RecordChunk;
    var r' := AddedSpace(s, tbase, tsize).recs;
    assert r'[0] == RecordPlace(s) + 16 && r'[1..] == s.recs;
  }

  lemma AddedLists(s: Space, tbase: int, tsize: nat)
    requires s.top in s.chunks && tsize > TOP_FOOT_SIZE && |s.recs| + 1 == |s.regs|
    ensures var s' := AddedSpace(s, tbase, tsize);
      && |s'.regs| == |s.regs| + 1 && |s'.recs| == |s.recs| + 1
      && (forall k :: 0 < k < |s'.regs| ==> s'.regs[k] == s.regs[k - 1])
      && (forall k :: 0 < k < |s'.recs| ==>
            s'.recs[k] == s.recs[k - 1] && NextRecord(s'.recs, k) == NextRecord(s.recs, k - 1))
      && s'.recs[0] == RecordPlace(s) + 16 && NextRecord(s'.recs, 0) == if s.recs == [] then 0 else s.recs[0]
  {}

  lemma FirstRecordChunk(s: Space, ms: int, tbase: int, tsize: nat)
    requires Shape(s, ms) && RecordsPlaced(s, ms) && NewRegion(s.regs, tbase, tsize) && s.top in s.chunks
    ensures |AddedSpace(s, tbase, tsize).recs| + 1 == |AddedSpace(s, tbase, tsize).regs|
    ensures RecordChunk(AddedSpace(s, tbase, tsize), ms, 0)
  {
    hide Shape, RecordsPlaced, RegionsOk, NewRegion, Granular;
    PlacedRegions(s, ms);
    TopBoundsHold(s, ms);
    OwnState(s, ms);
    OldPlaces(s, ms, tbase, tsize);
    SegmentPlace(s, ms, tbase, tsize, TopSeg(s));
    NewRegionSize(s.regs, tbase, tsize);
  }

  lemma OldRecordChunk(s: Space, ms: int, tbase: int, tsize: nat, k: nat)
    requires Shape(s, ms) && RecordsPlaced(s, ms) && NewRegion(s.regs, tbase, tsize) && s.top in s.chunks
    requires k < |s.recs|
    ensures |AddedSpace(s, tbase, tsize).recs| + 1 == |AddedSpace(s, tbase, tsize).regs|
    ensures RecordChunk(AddedSpace(s, tbase, tsize), ms, k + 1)
  {
    hide Shape, RecordsPlaced, RegionsOk, NewRegion, Granular;
    PlacedRegions(s, ms);
    PlacedRecord(s, ms, k);
    TopBoundsHold(s, ms);
    RecordInUse(s, ms, k);
    OldPlaces(s, ms, tbase, tsize);
    OtherBase(s.segs, TopSeg(s), s.regs, 0, k + 1);
    NewRegionSize(s.regs, tbase, tsize);
  }

  /** The record of the old segment, and its fenceposts. */
  ghost predicate AddedRecord(m: Mem, s: Space) {
    s.regs != [] && RecordInMem(m, RecordPlace(s) + 16, s.regs[0], if s.recs == [] then 0 else s.recs[0])
  }

  lemma AddedSegs(m: Mem, m': Mem, s: Space, ms: int, tbase: int, tsize: nat)
    requires HeapOk(m, s, ms) && SegsOk(m, s, ms) && NewRegion(s.regs, tbase, tsize) && s.top in s.chunks
    requires KeptButTop(m, m', s, tbase, tsize) && AddedRecord(m', s)
    ensures SegsOk(m', AddedSpace(s, tbase, tsize), ms)
  {
    hide HeapOk, Shape, RecordsPlaced, RegionsOk, NewRegion, KeptButTop, Granular, RecordInMem, AddedSpace, RecordPlace;
    hide RecordsSame;
    ShapeOf(m, s, ms);
    ListPlaced(m, s, ms, s.regs);
    PlacedRegions(s, ms);
    NewRegionSize(s.regs, tbase, tsize);
    RecordsButTop(m, m', s, ms, tbase, tsize);
    AddedPlaced(s, ms, tbase, tsize);
    AddedLists(s, tbase, tsize);
    var s' := AddedSpace(s, tbase, tsize);
    forall k: nat | k < |s'.recs| ensures Listed(m', s', s'.regs, k) {
      if k > 0 {
        ListRecord(m, s, ms, s.regs, k - 1);
        RecordKept(m, m', s, k - 1, s.regs[k], NextRecord(s.recs, k - 1));
      }
    }
  }

  /** What is left of `top` is a free chunk like others. */
  ghost predicate Remainder(s: Space, s': Space) {
    && s.top in s'.chunks && !s'.chunks[s.top].cin && s.top != s'.top && s.top != s.dv
    && s'.chunks[s.top].size == SizeOf(s, s.top) && RecordPlace(s) == NextOf(s, s.top)
  }

  /** Other chunks and segments are as they were. */
  lemma AddedFields(s: Space, ms: int, tbase: int, tsize: nat)
    requires Shape(s, ms) && RegionsOk(s.segs, TopSeg(s), s.regs) && NewRegion(s.regs, tbase, tsize)
    requires s.top in s.chunks
    ensures var s' := AddedSpace(s, tbase, tsize);
      && s'.top == tbase && s'.dv == s.dv && tbase in s'.chunks && s'.chunks[tbase].size == tsize - TOP_FOOT_SIZE
      && (s.dv != 0 ==> s.dv in s.chunks && s.dv in s'.chunks && s'.chunks[s.dv] == s.chunks[s.dv])
      && (forall f :: f in s'.segs ==>
            (f in s.segs || f == tbase) && ((f in s.segs && s'.segs[f] == s.segs[f]) || s'.segs[f] <= TWO64))
      && (RecordPlace(s) != s.top ==> Remainder(s, s'))
  {
    hide Shape, RegionsOk, NewRegion, Granular;
    OldPlaces(s, ms, tbase, tsize);
    TopBoundsHold(s, ms);
    DvInside(s, ms);
    NewRegionSize(s.regs, tbase, tsize);
    SegmentPlace(s, ms, tbase, tsize, TopSeg(s));
  }

  lemma AddedAbove(s: Space, ms: int, tbase: int, tsize: nat, leastAddr: int)
    requires Shape(s, ms) && RegionsOk(s.segs, TopSeg(s), s.regs) && NewRegion(s.regs, tbase, tsize)
    requires s.top in s.chunks
    requires SegsAbove(s.segs, leastAddr) && leastAddr <= tbase
    ensures tsize > TOP_FOOT_SIZE && SegsAbove(AddedSpace(s, tbase, tsize).segs, leastAddr)
  {
    hide Shape, RegionsOk, NewRegion, AddedSpace;
    NewRegionSize(s.regs, tbase, tsize);
    AddedFields(s, ms, tbase, tsize);
  }

  lemma AddedHead(s: Space, tbase: int, tsize: nat)
    requires s.top in s.chunks && tsize > TOP_FOOT_SIZE
    ensures var s' := AddedSpace(s, tbase, tsize);
      Headed(s'.regs, s'.recs, Region(tbase, tsize, false), RecordPlace(s) + 16)
  {}

  /** A new segment, for the heap, the bins, and the clients. */
  lemma Added(m: Mem, m': Mem, s: Space, ms: int, tbase: int, tsize: nat, f: Sizing, h: Held, sm: Word32, tm: Word32)
    requires HeapOk(m, s, ms) && RegionsOk(s.segs, TopSeg(s), s.regs) && NewRegion(s.regs, tbase, tsize)
    requires s.top in s.chunks
    requires KeptButTop(m, m', s, tbase, tsize) && AddedTagged(m', s, tbase, tsize)
    requires BinnedOk(s, f, {}) && BinsHold(m, f, ms, h, sm, tm)
    ensures var s' := AddedSpace(s, tbase, tsize);
      && HeapOk(m', s', ms) && BinsHold(m', f, ms, h, sm, tm) && BinnedOk(s', f, LeftOut(s))
      && Live(s') == Live(s) && PayloadKept(m, m', Live(s)) && RegionsOk(s'.segs, TopSeg(s'), s'.regs)
  {
    hide HeapOk, Shape, RegionsOk, KeptButTop, AddedTagged, BinsHold, BinnedOk, AddedSpace, PayloadKept, Live, Granular;
    ShapeOf(m, s, ms);
    AddedHeap(m, m', s, ms, tbase, tsize);
    AddedBinned(s, ms, tbase, tsize, f);
    BinnedFree(s, f, {});
    BinnedFree(AddedSpace(s, tbase, tsize), f, LeftOut(s));
    BinsStay(m, m', s, ms, tbase, tsize, AddedSpace(s, tbase, tsize), f, h, sm, tm);
    PayloadsKept(m, m', s, ms, tbase, tsize);
    AddedRegions(s, ms, tbase, tsize);
  }

  // ----- more room behind `top` -----

  function AppendedSpace(s: Space, tsize: nat): Space
    requires s.top in s.chunks && s.regs != []
  {
    var c, r := s.chunks[s.top], s.regs[0];
    Space(s.chunks[s.top := Chunk(c.size + tsize, c.cin, c.pin, c.seg)], s.segs[c.seg := TopEndOf(s) + tsize],
          s.top, s.dv, s.own, s.regs[0 := Region(r.base, r.size + tsize, r.pinned)], s.recs)
  }

  /** The new region starts where that of `top` ends. */
  ghost predicate Appendable(s: Space, tbase: int, tsize: nat) {
    && NewRegion(s.regs, tbase, tsize) && s.regs != [] && tbase == s.regs[0].base + s.regs[0].size
    && s.regs[0].size + tsize < 0x100_0000_0000
  }

  lemma AppendedTiled(s: Space, ms: int, tbase: int, tsize: nat)
    requires Shape(s, ms) && RegionsOk(s.segs, TopSeg(s), s.regs) && Appendable(s, tbase, tsize) && s.top in s.chunks
    ensures var s' := AppendedSpace(s, tsize); Tiled(s'.chunks, s'.segs)
  {
    hide Shape, RegionsOk, NextFits, Granular;
    TopBoundsHold(s, ms);
    var s' := AppendedSpace(s, tsize);
    var d := s'.chunks;
    forall p: int, q: int | p in d && q in d && p < q ensures p + d[p].size <= q {
      ChunkPlace(s, ms, tbase, tsize, p);
      ChunkPlace(s, ms, tbase, tsize, q);
      ChunksApart(s, ms, p, q);
    }
    forall p | p in d ensures ChunkFits(d, s'.segs, p) { AppendedFits(s, ms, tbase, tsize, p); }
    forall f | f in s'.segs ensures SegmentOk(d, s'.segs, f) {
      SegmentOf(s, ms, f);
      if s'.segs[f] in s.chunks { ChunkPlace(s, ms, tbase, tsize, s'.segs[f]); }
    }
  }

  lemma AppendedFits(s: Space, ms: int, tbase: int, tsize: nat, p: int)
    requires Shape(s, ms) && RegionsOk(s.segs, TopSeg(s), s.regs) && Appendable(s, tbase, tsize) && p in s.chunks
    requires s.top in s.chunks
    ensures var s' := AppendedSpace(s, tsize); ChunkFits(s'.chunks, s'.segs, p)
  {
    hide Shape, RegionsOk, Granular;
    TopBoundsHold(s, ms);
    if p != s.top {
      ChunkPlace(s, ms, tbase, tsize, p);
      OtherFacts(s, ms, p);
    }
  }

  lemma AppendedShape(s: Space, ms: int, tbase: int, tsize: nat)
    requires Shape(s, ms) && RegionsOk(s.segs, TopSeg(s), s.regs) && Appendable(s, tbase, tsize) && s.top in s.chunks
    ensures Shape(AppendedSpace(s, tsize), ms)
  {
    hide RegionsOk, Tiled, Shape, NextFits, Granular;
    AppendedTiled(s, ms, tbase, tsize);
    TopBoundsHold(s, ms);
    DvInside(s, ms);
    OwnState(s, ms);
    StateOwn(s, ms);
    var s' := AppendedSpace(s, tsize);
    forall p | p in s.own ensures p in s'.chunks && s'.chunks[p].cin { OwnIn(s, ms, p); }
    forall p | p in s'.chunks && p != s.top
      ensures s'.chunks[p].size >= MIN_CHUNK_SIZE
      ensures !s'.chunks[p].cin ==>
        s'.chunks[p].pin && s'.chunks[p].seg in s'.segs && p + s'.chunks[p].size != s'.segs[s'.chunks[p].seg]
      ensures s'.chunks[p].seg in s'.segs && p + s'.chunks[p].size == s'.segs[s'.chunks[p].seg] ==> p in s.own
    {
      ChunkPlace(s, ms, tbase, tsize, p);
      OtherFacts(s, ms, p);
    }
    ShapeFrom(s', ms);
  }

  /** The tags of the larger `top`. */
  ghost predicate AppendedTagged(m: Mem, s: Space, tbase: int, tsize: nat) {
    && HasHead(m, s.top, SizeOf(s, s.top) + tsize, false, true)
    && HasHead(m, TopEndOf(s) + tsize, TOP_FOOT_SIZE, false, false)
    && Mapped(m, tbase, tbase + tsize)
  }

  lemma AppendedHeap(m: Mem, m': Mem, s: Space, ms: int, tbase: int, tsize: nat)
    requires HeapOk(m, s, ms) && RegionsOk(s.segs, TopSeg(s), s.regs) && Appendable(s, tbase, tsize)
    requires s.top in s.chunks
    requires KeptButTop(m, m', s, tbase, tsize) && AppendedTagged(m', s, tbase, tsize)
    ensures HeapOk(m', AppendedSpace(s, tsize), ms)
  {
    hide HeapOk, Shape, RegionsOk, KeptButTop, Tagged, Backed, NextFits, Granular;
    ShapeOf(m, s, ms);
    TopBoundsHold(s, ms);
    var s' := AppendedSpace(s, tsize);
    AppendedShape(s, ms, tbase, tsize);
    AppendedBacked(m, m', s, ms, tbase, tsize);
    forall p | p in s'.chunks ensures Tagged(m', s'.chunks, s.top, p) {
      if p != s.top {
        OtherTagKept(m, m', s, ms, tbase, tsize, p);
        SameTag(m', s.chunks, s'.chunks, s.top, p);
      } else {
        TopTag(m', s'.chunks, s.top);
      }
    }
    HeapFrom(m', s', ms);
  }

  lemma SameTag(m: Mem, c: Layout, d: Layout, top: int, p: int)
    requires p in c && p in d && c[p].size == d[p].size && c[p].cin == d[p].cin && c[p].pin == d[p].pin
    requires Tagged(m, c, top, p)
    ensures Tagged(m, d, top, p)
  {}

  lemma TopTag(m: Mem, c: Layout, top: int)
    requires top in c && HasHead(m, top, c[top].size, c[top].cin, c[top].pin)
    ensures Tagged(m, c, top, top)
  {}

  lemma AppendedBacked(m: Mem, m': Mem, s: Space, ms: int, tbase: int, tsize: nat)
    requires HeapOk(m, s, ms) && RegionsOk(s.segs, TopSeg(s), s.regs) && Appendable(s, tbase, tsize)
    requires s.top in s.chunks
    requires KeptButTop(m, m', s, tbase, tsize) && AppendedTagged(m', s, tbase, tsize)
    ensures var s' := AppendedSpace(s, tsize); Backed(m', s'.chunks, s'.segs, s.top)
  {
    hide HeapOk, Shape, RegionsOk, NextFits, Tiled, Tags, Coalesced, TopOk, OwnOk, DvOk, Granular;
    HeapShape(m, s, ms);
    TopBoundsHold(s, ms);
    var s' := AppendedSpace(s, tsize);
    forall f | f in s'.segs ensures Mapped(m', f, s'.segs[f] + 16) { assert Mapped(m, f, s.segs[f] + 16); }
  }

  lemma AppendedRest(s: Space, ms: int, tbase: int, tsize: nat, f: Sizing)
    requires Shape(s, ms) && RegionsOk(s.segs, TopSeg(s), s.regs) && Appendable(s, tbase, tsize) && s.top in s.chunks
    requires BinnedOk(s, f, {})
    ensures BinnedOk(AppendedSpace(s, tsize), f, {}) && Live(AppendedSpace(s, tsize)) == Live(s)
    ensures var s' := AppendedSpace(s, tsize); RegionsOk(s'.segs, TopSeg(s'), s'.regs)
  {
    hide Shape, Granular;
    TopBoundsHold(s, ms);
    AppendedRegions(s, tbase, tsize);
    var s' := AppendedSpace(s, tsize);
    forall p ensures p in f <==> p in s'.chunks && !s'.chunks[p].cin && p != s.top && p != s.dv {}
    forall p ensures p in Live(s') <==> p in Live(s) {}
  }

  lemma AppendedRegions(s: Space, tbase: int, tsize: nat)
    requires TopBounds(s) && RegionsOk(s.segs, TopSeg(s), s.regs) && Appendable(s, tbase, tsize)
    ensures var s' := AppendedSpace(s, tsize); RegionsOk(s'.segs, TopSeg(s'), s'.regs)
  {
    var s' := AppendedSpace(s, tsize);
    var r' := s'.regs;
    forall i | 0 <= i < |r'| ensures RegionOk(s'.segs, r'[i], 32) {
      assert RegionOk(s.segs, s.regs[i], 32);
      if i > 0 { assert RegionsApart(s.regs[0], s.regs[i]); }
    }
    forall i, j | 0 <= i < j < |r'| ensures RegionsApart(r'[i], r'[j]) {
      assert RegionsApart(s.regs[i], s.regs[j]);
      assert RegionsApart(s.regs[j], Region(tbase, tsize, false)) && RegionOk(s.segs, s.regs[j], 32);
    }
    forall f | f in s'.segs ensures exists i :: 0 <= i < |r'| && r'[i].base == f {
      var i :| 0 <= i < |s.regs| && s.regs[i].base == f;
      assert r'[i].base == f;
    }
  }

  /** Other chunks and segments are as they were. */
  lemma AppendedFields(s: Space, tbase: int, tsize: nat)
    requires TopBounds(s) && Appendable(s, tbase, tsize)
    ensures var s' := AppendedSpace(s, tsize);
      && s'.top == s.top && s'.dv == s.dv && s.top in s'.chunks && s'.chunks[s.top].size == SizeOf(s, s.top) + tsize
      && (s.dv != s.top && s.dv in s.chunks ==> s.dv in s'.chunks && s'.chunks[s.dv] == s.chunks[s.dv])
      && (forall f :: f in s'.segs ==> f in s.segs && (s'.segs[f] == s.segs[f] || s'.segs[f] <= TWO64))
  {}

  lemma AppendedSegs(m: Mem, m': Mem, s: Space, ms: int, tbase: int, tsize: nat)
    requires HeapOk(m, s, ms) && SegsOk(m, s, ms) && Appendable(s, tbase, tsize) && s.top in s.chunks
    requires KeptButTop(m, m', s, tbase, tsize)
    ensures SegsOk(m', AppendedSpace(s, tsize), ms)
  {
    hide HeapOk, Shape, RecordsPlaced, RegionsOk, KeptButTop, Granular, RecordInMem, NewRegion, RecordsSame;
    hide RecordChunk;
    ShapeOf(m, s, ms);
    ListPlaced(m, s, ms, s.regs);
    PlacedRegions(s, ms);
    RecordsButTop(m, m', s, ms, tbase, tsize);
    TopBoundsHold(s, ms);
    AppendedRegions(s, tbase, tsize);
    var s' := AppendedSpace(s, tsize);
    forall k | 0 <= k < |s'.recs| ensures RecordChunk(s', ms, k) { AppendedRecordChunk(s, ms, tsize, k); }
    PlacedOnly(s, ms, s');
    PlacedFrom(s', ms);
    forall k: nat | k < |s'.recs| ensures Listed(m', s', s'.regs, k) {
      ListRecord(m, s, ms, s.regs, k);
      RecordKept(m, m', s, k, s.regs[k + 1], NextRecord(s.recs, k));
    }
  }

  lemma AppendedRecordChunk(s: Space, ms: int, tsize: nat, k: nat)
    requires Shape(s, ms) && RecordsPlaced(s, ms) && s.top in s.chunks && k < |s.recs|
    ensures s.regs != [] && k + 1 < |AppendedSpace(s, tsize).regs| && RecordChunk(AppendedSpace(s, tsize), ms, k)
  {
    hide Shape, RecordsPlaced, RegionsOk, Granular;
    PlacedRegions(s, ms);
    PlacedRecord(s, ms, k);
    TopBoundsHold(s, ms);
    RecordInUse(s, ms, k);
    OtherBase(s.segs, TopSeg(s), s.regs, 0, k + 1);
  }

  lemma AppendedAbove(s: Space, tbase: int, tsize: nat, leastAddr: int)
    requires TopBounds(s) && Appendable(s, tbase, tsize) && SegsAbove(s.segs, leastAddr)
    ensures SegsAbove(AppendedSpace(s, tsize).segs, leastAddr)
  {
    hide NewRegion;
    NewRegionSize(s.regs, tbase, tsize);
    AppendedFields(s, tbase, tsize);
  }

  /** More room behind `top`, for the heap, the bins, and the clients. */
  lemma Appended(m: Mem, m': Mem, s: Space, ms: int, tbase: int, tsize: nat, f: Sizing, h: Held, sm: Word32, tm: Word32)
    requires HeapOk(m, s, ms) && RegionsOk(s.segs, TopSeg(s), s.regs) && Appendable(s, tbase, tsize)
    requires s.top in s.chunks
    requires KeptButTop(m, m', s, tbase, tsize) && AppendedTagged(m', s, tbase, tsize)
    requires BinnedOk(s, f, {}) && BinsHold(m, f, ms, h, sm, tm)
    ensures var s' := AppendedSpace(s, tsize);
      && HeapOk(m', s', ms) && BinsHold(m', f, ms, h, sm, tm) && BinnedOk(s', f, {}) && Live(s') == Live(s)
      && PayloadKept(m, m', Live(s))
      && RegionsOk(s'.segs, TopSeg(s'), s'.regs)
  {
    hide HeapOk, Shape, RegionsOk, KeptButTop, AppendedTagged, BinsHold, BinnedOk, AppendedSpace, PayloadKept, Live;
    hide Granular;
    ShapeOf(m, s, ms);
    AppendedHeap(m, m', s, ms, tbase, tsize);
    AppendedRest(s, ms, tbase, tsize, f);
    BinnedFree(s, f, {});
    BinnedFree(AppendedSpace(s, tsize), f, {});
    BinsStay(m, m', s, ms, tbase, tsize, AppendedSpace(s, tsize), f, h, sm, tm);
    PayloadsKept(m, m', s, ms, tbase, tsize);
  }

  // ----- the region itself -----

  lemma OutsideIsBut(m: Mem, m': Mem, s: Space, tbase: int, tsize: nat)
    requires KeptOutside(m, m', tbase, tsize)
    ensures KeptButTop(m, m', s, tbase, tsize)
  {}

  lemma TagOutside(m: Mem, m': Mem, s: Space, ms: int, tbase: int, tsize: nat, p: int)
    requires HeapOk(m, s, ms) && RegionsOk(s.segs, TopSeg(s), s.regs) && NewRegion(s.regs, tbase, tsize)
    requires KeptOutside(m, m', tbase, tsize) && p in s.chunks
    ensures Tagged(m', s.chunks, s.top, p)
  {
    hide HeapOk, Shape, RegionsOk, NewRegion, NextFits, Granular;
    ShapeOf(m, s, ms);
    FreeChunk(m, s, ms, p);
    ChunkPlace(s, ms, tbase, tsize, p);
  }

  lemma BackedOutside(m: Mem, m': Mem, s: Space, ms: int, tbase: int, tsize: nat)
    requires HeapOk(m, s, ms) && RegionsOk(s.segs, TopSeg(s), s.regs) && NewRegion(s.regs, tbase, tsize)
    requires KeptOutside(m, m', tbase, tsize)
    ensures Backed(m', s.chunks, s.segs, s.top)
  {
    hide HeapOk, Shape, RegionsOk, NewRegion, NextFits, Tiled, Tags, Coalesced, TopOk, OwnOk, DvOk, Granular;
    HeapShape(m, s, ms);
    TopBoundsHold(s, ms);
    SegmentPlace(s, ms, tbase, tsize, TopSeg(s));
    forall f | f in s.segs ensures Mapped(m', f, s.segs[f] + 16) { assert Mapped(m, f, s.segs[f] + 16); }
  }

  /** What is written into a region that is not yet part of the heap concerns nothing. */
  lemma Outside(m: Mem, m': Mem, s: Space, ms: int, tbase: int, tsize: nat, f: Sizing, h: Held, sm: Word32, tm: Word32)
    requires HeapOk(m, s, ms) && RegionsOk(s.segs, TopSeg(s), s.regs) && NewRegion(s.regs, tbase, tsize)
    requires KeptOutside(m, m', tbase, tsize)
    requires FreeOnes(s, f) && BinsHold(m, f, ms, h, sm, tm)
    ensures HeapOk(m', s, ms) && BinsHold(m', f, ms, h, sm, tm) && PayloadKept(m, m', Live(s))
  {
    hide HeapOk, Shape, RegionsOk, NewRegion, KeptOutside, KeptButTop, Tagged, Backed, BinsHold, PayloadKept, FreeOnes;
    hide Granular;
    ShapeOf(m, s, ms);
    OutsideIsBut(m, m', s, tbase, tsize);
    forall p | p in s.chunks ensures Tagged(m', s.chunks, s.top, p) { TagOutside(m, m', s, ms, tbase, tsize, p); }
    BackedOutside(m, m', s, ms, tbase, tsize);
    HeapFrom(m', s, ms);
    BinsStay(m, m', s, ms, tbase, tsize, s, f, h, sm, tm);
    PayloadsKept(m, m', s, ms, tbase, tsize);
  }

  lemma OutsideList(m: Mem, m': Mem, s: Space, ms: int, tbase: int, tsize: nat, l: seq<Region>)
    requires HeapOk(m, s, ms) && ListOk(m, s, ms, l) && NewRegion(s.regs, tbase, tsize)
    requires KeptOutside(m, m', tbase, tsize)
    ensures ListOk(m', s, ms, l)
  {
    hide HeapOk, Shape, ListOk, RecordsPlaced, NewRegion, KeptOutside, KeptButTop, RecordsSame;
    ShapeOf(m, s, ms);
    ListPlaced(m, s, ms, l);
    PlacedRegions(s, ms);
    OutsideIsBut(m, m', s, tbase, tsize);
    RecordsButTop(m, m', s, ms, tbase, tsize);
    ListKept(m, m', s, s, ms, l);
  }

  // ----- more room before a segment -----

  /** The chunk at the front of a segment is now part of the segment that starts at `tbase`. */
  function Moved(c: Chunk, f: int, tbase: int): Chunk { if c.seg == f then c.(seg := tbase) else c }

  /** The segment of region `i` starts at `tbase` with two more chunks in use, the first one of `nb` bytes. */
  function PrefixedSpace(s: Space, i: nat, tbase: int, nb: nat): Space
    requires i < |s.regs| && s.regs[i].base in s.segs && tbase + nb < s.regs[i].base
  {
    var f, r := s.regs[i].base, s.regs[i];
    Space((map p | p in s.chunks :: Moved(s.chunks[p], f, tbase))
            [tbase := Chunk(nb, true, true, tbase)][tbase + nb := Chunk(f - tbase - nb, true, true, tbase)],
          (s.segs - {f})[tbase := s.segs[f]], s.top, s.dv, s.own,
          s.regs[i := Region(tbase, r.size + f - tbase, r.pinned)], s.recs)
  }

  /** The new region ends where region `i` starts. */
  ghost predicate Prependable(s: Space, i: nat, tbase: int, tsize: nat, nb: nat) {
    && NewRegion(s.regs, tbase, tsize) && i < |s.regs| && tbase + tsize == s.regs[i].base
    && s.regs[i].size + tsize < 0x100_0000_0000
    && nb % 16 == 0 && nb >= MIN_CHUNK_SIZE && nb + MIN_CHUNK_SIZE <= tsize && s.regs[i].base in s.segs
    && s.top in s.chunks
  }

  lemma PrefixedFits(s: Space, ms: int, i: nat, tbase: int, tsize: nat, nb: nat, p: int)
    requires Shape(s, ms) && RegionsOk(s.segs, TopSeg(s), s.regs) && Prependable(s, i, tbase, tsize, nb)
    requires p in PrefixedSpace(s, i, tbase, nb).chunks
    ensures var s' := PrefixedSpace(s, i, tbase, nb); ChunkFits(s'.chunks, s'.segs, p)
  {
    hide TopSeg, RegionsApart, Shape, RegionsOk, NewRegion, Granular;
    PrefixAligned(s.regs, tbase, tsize);
    SegmentOf(s, ms, s.regs[i].base);
    ShapeAligned(s, ms, s.regs[i].base);
    OldPlaces(s, ms, tbase, tsize);
    if p in s.chunks {
      ChunkPlace(s, ms, tbase, tsize, p);
      FitsAny(s, ms, p);
    }
  }

  lemma PrefixAligned(r: seq<Region>, tbase: int, tsize: nat)
    requires NewRegion(r, tbase, tsize)
    ensures tbase % 16 == 0 && tsize % 16 == 0 && tbase > 0
  {}

  lemma FitsAny(s: Space, ms: int, p: int)
    requires Shape(s, ms) && p in s.chunks
    ensures ChunkFits(s.chunks, s.segs, p)
  {
    hide Tiled, Coalesced, TopOk, DvOk, OwnOk, NextFits, Granular;
    NextChunk(s.chunks, s.segs, p);
  }

  lemma PrefixedSegment(s: Space, ms: int, i: nat, tbase: int, tsize: nat, nb: nat, g: int)
    requires Shape(s, ms) && RegionsOk(s.segs, TopSeg(s), s.regs) && Prependable(s, i, tbase, tsize, nb)
    requires g in PrefixedSpace(s, i, tbase, nb).segs
    ensures var s' := PrefixedSpace(s, i, tbase, nb); SegmentOk(s'.chunks, s'.segs, g)
  {
    hide Shape, RegionsOk, Granular;
    SegmentOf(s, ms, s.regs[i].base);
    var j := RecordOf(s.segs, TopSeg(s), s.regs, s.regs[i].base);
    SameRecord(s.segs, TopSeg(s), s.regs, i, j);
    if g in s.segs {
      SegmentOf(s, ms, g);
      SegmentPlace(s, ms, tbase, tsize, g);
    }
  }

  lemma SameRecord(g: Segments, topSeg: int, r: seq<Region>, i: nat, j: nat)
    requires RegionsOk(g, topSeg, r) && i < |r| && j < |r| && r[i].base == r[j].base
    ensures i == j
  {
    if i < j { OtherBase(g, topSeg, r, i, j); } else if j < i { OtherBase(g, topSeg, r, j, i); }
  }

  lemma OtherBase(g: Segments, topSeg: int, r: seq<Region>, i: nat, j: nat)
    requires RegionsOk(g, topSeg, r) && i < j < |r|
    ensures r[i].base != r[j].base
  {
    assert RegionOk(g, r[i], 32) && RegionOk(g, r[j], 32) && RegionsApart(r[i], r[j]);
  }

  lemma PrefixedTiled(s: Space, ms: int, i: nat, tbase: int, tsize: nat, nb: nat)
    requires Shape(s, ms) && RegionsOk(s.segs, TopSeg(s), s.regs) && Prependable(s, i, tbase, tsize, nb)
    ensures var s' := PrefixedSpace(s, i, tbase, nb); Tiled(s'.chunks, s'.segs)
  {
    hide Shape, RegionsOk, ChunkFits, SegmentOk, Granular;
    var s' := PrefixedSpace(s, i, tbase, nb);
    var d := s'.chunks;
    forall p: int, q: int | p in d && q in d && p < q ensures p + d[p].size <= q {
      if p in s.chunks { ChunkPlace(s, ms, tbase, tsize, p); }
      if q in s.chunks { ChunkPlace(s, ms, tbase, tsize, q); }
      if p in s.chunks && q in s.chunks { ChunksApart(s, ms, p, q); }
    }
    forall p | p in d ensures ChunkFits(d, s'.segs, p) { PrefixedFits(s, ms, i, tbase, tsize, nb, p); }
    forall g | g in s'.segs ensures SegmentOk(d, s'.segs, g) { PrefixedSegment(s, ms, i, tbase, tsize, nb, g); }
  }

  lemma PrefixedShape(s: Space, ms: int, i: nat, tbase: int, tsize: nat, nb: nat)
    requires Shape(s, ms) && RegionsOk(s.segs, TopSeg(s), s.regs) && Prependable(s, i, tbase, tsize, nb)
    ensures Shape(PrefixedSpace(s, i, tbase, nb), ms)
  {
    hide RegionsOk, Tiled, Shape, NextFits, NewRegion, Granular;
    PrefixedTiled(s, ms, i, tbase, tsize, nb) by { assert Prependable(s, i, tbase, tsize, nb); }
    TopBoundsHold(s, ms);
    DvInside(s, ms);
    OwnState(s, ms);
    StateOwn(s, ms);
    SegmentOf(s, ms, s.regs[i].base);
    var s' := PrefixedSpace(s, i, tbase, nb);
    OldPlaces(s, ms, tbase, tsize);
    forall p | p in s.own ensures p in s'.chunks && s'.chunks[p].cin { OwnIn(s, ms, p); }
    forall p | p in s'.chunks && p != s.top
      ensures s'.chunks[p].size >= MIN_CHUNK_SIZE
      ensures !s'.chunks[p].cin ==>
        s'.chunks[p].pin && s'.chunks[p].seg in s'.segs && p + s'.chunks[p].size != s'.segs[s'.chunks[p].seg]
      ensures s'.chunks[p].seg in s'.segs && p + s'.chunks[p].size == s'.segs[s'.chunks[p].seg] ==> p in s.own
    {
      if p in s.chunks {
        ChunkPlace(s, ms, tbase, tsize, p);
        OtherFacts(s, ms, p);
      }
    }
    ShapeFrom(s', ms);
  }

  /** No chunk and no segment starts in the new region. */
  lemma OldPlaces(s: Space, ms: int, tbase: int, tsize: nat)
    requires Shape(s, ms) && RegionsOk(s.segs, TopSeg(s), s.regs) && NewRegion(s.regs, tbase, tsize)
    ensures forall p :: p in s.chunks ==> p < tbase || p >= tbase + tsize
    ensures forall f :: f in s.segs ==> f < tbase || f >= tbase + tsize
  {
    hide Shape, RegionsOk, NewRegion, Granular;
    forall p | p in s.chunks ensures p < tbase || p >= tbase + tsize { ChunkPlace(s, ms, tbase, tsize, p); }
    forall f | f in s.segs
      ensures f < tbase || f >= tbase + tsize
    {
      SegmentOf(s, ms, f);
      SegmentPlace(s, ms, tbase, tsize, f);
    }
  }

  ghost predicate PrefixedTagged(m: Mem, f: int, tbase: int, nb: nat) {
    && tbase + nb < f && HasHead(m, tbase, nb, true, true) && HasHead(m, tbase + nb, f - tbase - nb, true, true)
    && Mapped(m, tbase, f)
  }

  lemma PrefixedHeap(m: Mem, m': Mem, s: Space, ms: int, i: nat, tbase: int, tsize: nat, nb: nat)
    requires HeapOk(m, s, ms) && RegionsOk(s.segs, TopSeg(s), s.regs) && Prependable(s, i, tbase, tsize, nb)
    requires KeptOutside(m, m', tbase, tsize) && PrefixedTagged(m', s.regs[i].base, tbase, nb)
    ensures HeapOk(m', PrefixedSpace(s, i, tbase, nb), ms)
  {
    hide HeapOk, Shape, RegionsOk, KeptOutside, Tagged, Backed, NextFits, NewRegion, Granular;
    ShapeOf(m, s, ms);
    var s' := PrefixedSpace(s, i, tbase, nb);
    PrefixedShape(s, ms, i, tbase, tsize, nb);
    OldPlaces(s, ms, tbase, tsize);
    PrefixedBacked(m, m', s, ms, i, tbase, tsize, nb);
    forall p | p in s'.chunks ensures Tagged(m', s'.chunks, s.top, p) {
      if p in s.chunks {
        TagOutside(m, m', s, ms, tbase, tsize, p);
        SameTag(m', s.chunks, s'.chunks, s.top, p);
      } else {
        UsedTag(m', s'.chunks, s.top, p);
      }
    }
    HeapFrom(m', s', ms);
  }

  lemma UsedTag(m: Mem, c: Layout, top: int, p: int)
    requires p in c && c[p].cin && HasHead(m, p, c[p].size, c[p].cin, c[p].pin)
    ensures Tagged(m, c, top, p)
  {}

  lemma PrefixedBacked(m: Mem, m': Mem, s: Space, ms: int, i: nat, tbase: int, tsize: nat, nb: nat)
    requires HeapOk(m, s, ms) && RegionsOk(s.segs, TopSeg(s), s.regs) && Prependable(s, i, tbase, tsize, nb)
    requires KeptOutside(m, m', tbase, tsize) && PrefixedTagged(m', s.regs[i].base, tbase, nb)
    ensures var s' := PrefixedSpace(s, i, tbase, nb); Backed(m', s'.chunks, s'.segs, s.top)
  {
    hide HeapOk, Shape, RegionsOk, KeptOutside, NewRegion, NextFits, Granular;
    ShapeOf(m, s, ms);
    BackedOutside(m, m', s, ms, tbase, tsize);
    OldPlaces(s, ms, tbase, tsize);
    var s', f := PrefixedSpace(s, i, tbase, nb), s.regs[i].base;
    forall g | g in s'.segs ensures Mapped(m', g, s'.segs[g] + 16) {
      if g == tbase { assert Mapped(m', f, s.segs[f] + 16); } else { assert Mapped(m', g, s.segs[g] + 16); }
    }
  }

  lemma PrefixedBinned(s: Space, ms: int, i: nat, tbase: int, tsize: nat, nb: nat, f: Sizing, out: set<int>)
    requires Shape(s, ms) && RegionsOk(s.segs, TopSeg(s), s.regs) && Prependable(s, i, tbase, tsize, nb)
    requires BinnedOk(s, f, out)
    ensures BinnedOk(PrefixedSpace(s, i, tbase, nb), f, out)
  {
    hide Shape, RegionsOk, NewRegion, Granular;
    OldPlaces(s, ms, tbase, tsize);
    var s' := PrefixedSpace(s, i, tbase, nb);
    forall p ensures p in f <==> p in s'.chunks && !s'.chunks[p].cin && p != s.top && p != s.dv && p !in out {}
  }

  lemma PrefixedLive(s: Space, ms: int, i: nat, tbase: int, tsize: nat, nb: nat)
    requires Shape(s, ms) && RegionsOk(s.segs, TopSeg(s), s.regs) && Prependable(s, i, tbase, tsize, nb)
    ensures var s' := PrefixedSpace(s, i, tbase, nb);
      && Live(s') == Live(s)[tbase := nb][tbase + nb := s.regs[i].base - tbase - nb] && tbase !in Live(s)
      && tbase + nb !in Live(s)
  {
    hide Shape, RegionsOk, NewRegion, Granular;
    OldPlaces(s, ms, tbase, tsize);
    forall p | p in s.own ensures p != tbase && p != tbase + nb { OwnIn(s, ms, p); }
    var s' := PrefixedSpace(s, i, tbase, nb);
    var l, l' := Live(s)[tbase := nb][tbase + nb := s.regs[i].base - tbase - nb], Live(s');
    forall p ensures p in l <==> p in l' {}
    forall p | p in l ensures l[p] == l'[p] {}
  }

  lemma PrefixedRegion(s: Space, ms: int, i: nat, tbase: int, tsize: nat, nb: nat, j: nat)
    requires Shape(s, ms) && RegionsOk(s.segs, TopSeg(s), s.regs) && Prependable(s, i, tbase, tsize, nb) && j < |s.regs|
    ensures var s' := PrefixedSpace(s, i, tbase, nb); RegionOk(s'.segs, s'.regs[j], 32)
  {
    hide Shape, Granular, Moved;
    OldPlaces(s, ms, tbase, tsize);
    assert RegionOk(s.segs, s.regs[i], 32) && RegionOk(s.segs, s.regs[j], 32);
    if i == j {
      if !s.regs[i].pinned { GranularSum(s.regs[i].size, tsize); }
    } else if s.regs[j].base == s.regs[i].base {
      SameRecord(s.segs, TopSeg(s), s.regs, i, j);
    }
  }

  lemma PrefixedRegions(s: Space, ms: int, i: nat, tbase: int, tsize: nat, nb: nat)
    requires Shape(s, ms) && RegionsOk(s.segs, TopSeg(s), s.regs) && Prependable(s, i, tbase, tsize, nb)
    ensures var s' := PrefixedSpace(s, i, tbase, nb); RegionsOk(s'.segs, TopSeg(s'), s'.regs)
  {
    hide Shape, Granular;
    var s' := PrefixedSpace(s, i, tbase, nb);
    var r' := s'.regs;
    TopBoundsHold(s, ms);
    OldPlaces(s, ms, tbase, tsize);
    assert RegionOk(s.segs, s.regs[i], 32);
    forall j | 0 <= j < |r'| ensures RegionOk(s'.segs, r'[j], 32) { PrefixedRegion(s, ms, i, tbase, tsize, nb, j); }
    forall j, k | 0 <= j < k < |r'| ensures RegionsApart(r'[j], r'[k]) {
      assert RegionsApart(s.regs[j], s.regs[k]) && RegionOk(s.segs, s.regs[j], 32) && RegionOk(s.segs, s.regs[k], 32);
    }
    forall g | g in s'.segs
      ensures exists j :: 0 <= j < |r'| && r'[j].base == g
    {
      PrefixedRecord(s, ms, i, tbase, tsize, nb, g);
    }
    TopRecord(s, ms, i);
  }

  lemma PrefixedRecord(s: Space, ms: int, i: nat, tbase: int, tsize: nat, nb: nat, g: int)
    requires Shape(s, ms) && RegionsOk(s.segs, TopSeg(s), s.regs) && Prependable(s, i, tbase, tsize, nb)
    requires g in PrefixedSpace(s, i, tbase, nb).segs
    ensures var r' := PrefixedSpace(s, i, tbase, nb).regs; exists j :: 0 <= j < |r'| && r'[j].base == g
  {
    hide Shape, Granular;
    var r' := PrefixedSpace(s, i, tbase, nb).regs;
    if g == tbase {
      assert r'[i].base == g;
    } else {
      var j :| 0 <= j < |s.regs| && s.regs[j].base == g;
      assert r'[j].base == g;
    }
  }

  /** `top` is in the first region, and in no other. */
  lemma TopRecord(s: Space, ms: int, i: nat)
    requires Shape(s, ms) && RegionsOk(s.segs, TopSeg(s), s.regs) && i < |s.regs|
    ensures s.regs[i].base == TopSeg(s) <==> i == 0
  {
    hide Shape, Granular;
    if s.regs[i].base == TopSeg(s) { SameRecord(s.segs, TopSeg(s), s.regs, i, 0); }
  }

  lemma PrefixedRecordChunk(s: Space, ms: int, i: nat, tbase: int, tsize: nat, nb: nat, k: nat)
    requires Shape(s, ms) && RecordsPlaced(s, ms) && Prependable(s, i, tbase, tsize, nb) && k < |s.recs|
    ensures k + 1 < |PrefixedSpace(s, i, tbase, nb).regs| && RecordChunk(PrefixedSpace(s, i, tbase, nb), ms, k)
  {
    hide Shape, RecordsPlaced, RegionsOk, Granular, NewRegion;
    PlacedRegions(s, ms);
    PlacedRecord(s, ms, k);
    OldPlaces(s, ms, tbase, tsize);
    if s.regs[k + 1].base == s.regs[i].base { SameRecord(s.segs, TopSeg(s), s.regs, k + 1, i); }
  }

  /** When the record in memory already describes the enlarged region, all records fit the space with the new chunks. */
  lemma PrefixedSegs(m: Mem, m': Mem, s: Space, ms: int, i: nat, tbase: int, tsize: nat, nb: nat)
    requires HeapOk(m, s, ms) && Prependable(s, i, tbase, tsize, nb) && KeptOutside(m, m', tbase, tsize)
    requires ListOk(m, s, ms, PrefixedSpace(s, i, tbase, nb).regs)
    ensures SegsOk(m', PrefixedSpace(s, i, tbase, nb), ms)
  {
    hide HeapOk, Shape, RecordsPlaced, RegionsOk, KeptOutside, Granular, RecordInMem, NewRegion, RecordChunk;
    ShapeOf(m, s, ms);
    var s' := PrefixedSpace(s, i, tbase, nb);
    OutsideList(m, m', s, ms, tbase, tsize, s'.regs);
    ListPlaced(m, s, ms, s'.regs);
    PlacedRegions(s, ms);
    PrefixedRegions(s, ms, i, tbase, tsize, nb);
    forall k | 0 <= k < |s'.recs| ensures RecordChunk(s', ms, k) { PrefixedRecordChunk(s, ms, i, tbase, tsize, nb, k); }
    PlacedOnly(s, ms, s');
    PlacedFrom(s', ms);
    forall k: nat | k < |s'.recs| ensures Listed(m', s', s'.regs, k) { ListRecord(m', s, ms, s'.regs, k); }
  }

  /** More room before a segment, for the heap, the bins, and the clients. */
  lemma Prefixed(m: Mem, m': Mem, s: Space, ms: int, i: nat, tbase: int, tsize: nat, nb: nat, f: Sizing, out: set<int>,
      h: Held, sm: Word32, tm: Word32)
    requires HeapOk(m, s, ms) && RegionsOk(s.segs, TopSeg(s), s.regs) && Prependable(s, i, tbase, tsize, nb)
    requires KeptOutside(m, m', tbase, tsize) && PrefixedTagged(m', s.regs[i].base, tbase, nb)
    requires BinnedOk(s, f, out) && BinsHold(m, f, ms, h, sm, tm)
    ensures var s' := PrefixedSpace(s, i, tbase, nb);
      && HeapOk(m', s', ms) && BinsHold(m', f, ms, h, sm, tm) && BinnedOk(s', f, out) && PayloadKept(m, m', Live(s))
      && Live(s') == Live(s)[tbase := nb][tbase + nb := s.regs[i].base - tbase - nb] && tbase !in Live(s)
      && tbase + nb !in Live(s)
      && RegionsOk(s'.segs, TopSeg(s'), s'.regs)
  {
    hide HeapOk, Shape, RegionsOk, KeptOutside, PrefixedTagged, BinsHold, BinnedOk, PayloadKept, Live, NewRegion;
    hide Granular;
    ShapeOf(m, s, ms);
    PrefixedHeap(m, m', s, ms, i, tbase, tsize, nb);
    PrefixedBinned(s, ms, i, tbase, tsize, nb, f, out);
    PrefixedLive(s, ms, i, tbase, tsize, nb);
    PrefixedRegions(s, ms, i, tbase, tsize, nb);
    BinnedFree(s, f, out);
    Outside(m, m', s, ms, tbase, tsize, f, h, sm, tm);
  }

  // ----- the front of the enlarged segment: one chunk in use, the rest free -----

  /** Where the free chunk that starts in the new region ends: over the old first chunk, when that is free. */
  function FrontEnd(s: Space, f: int): int { if UsedAt(s, f) then f else NextOf(s, f) }

  function FrontTop(s: Space, f: int, q: int): int { if f == s.top then q else s.top }
  function FrontDv(s: Space, f: int, q: int): int { if f == s.dv then q else s.dv }

  /** The old first chunk, when it was in a bin. */
  ghost function FrontOut(s: Space, f: int): set<int> { if FreeAt(s, f) && f != s.top && f != s.dv then {f} else {} }

  ghost function FrontSpace(s: Space, i: nat, tbase: int, nb: nat): Space
    requires i < |s.regs| && s.regs[i].base in s.segs && tbase + nb < s.regs[i].base <= FrontEnd(s, s.regs[i].base)
  {
    var f := s.regs[i].base;
    OneSpace(PrefixedSpace(s, i, tbase, nb), tbase + nb, FrontEnd(s, f), false, FrontTop(s, f, tbase + nb),
        FrontDv(s, f, tbase + nb))
  }

  /** The list of regions once region `i` starts at `tbase`. */
  function PrefixedRegs(r: seq<Region>, i: nat, tbase: int): seq<Region>
    requires i < |r| && tbase < r[i].base
  {
    r[i := Region(tbase, r[i].size + r[i].base - tbase, r[i].pinned)]
  }

  lemma FrontRegs(s: Space, i: nat, tbase: int, nb: nat)
    requires i < |s.regs| && s.regs[i].base in s.segs && tbase + nb < s.regs[i].base <= FrontEnd(s, s.regs[i].base)
    ensures FrontSpace(s, i, tbase, nb).regs == PrefixedRegs(s.regs, i, tbase)
  {}

  ghost predicate FrontTagged(m: Mem, m': Mem, s: Space, f: int, q: int) {
    var e := FrontEnd(s, f);
    && Rewritten(m, m', q, e) && q < e && HasHead(m', q, e - q, false, true) && (f != s.top ==> NumAt(m', e, e - q))
    && (if e in s.chunks then HasHead(m', e, SizeOf(s, e), UsedAt(s, e), false) else SameWord(m, m', e + HEAD))
  }

  /** What the old first chunk, and the free chunk before it, are in the space with the new chunks. */
  ghost predicate FrontPlace(s: Space, s': Space, f: int, q: int) {
    && f in s.chunks && s.chunks[f].pin && 0 < q && q + 16 <= f <= FrontEnd(s, f) && s'.top == s.top && s'.dv == s.dv
    && f in s'.chunks && SizeOf(s', f) == SizeOf(s, f) && (UsedAt(s', f) <==> UsedAt(s, f))
    && q in s'.chunks && NextOf(s', q) == f && s'.chunks[q].pin && Neighbours(s', q, q)
    && TopAfter(s', q, q) == FrontTop(s, f, q) && DvAfter(s', q, q) == FrontDv(s, f, q)
    && FreeEnd(s', q) == FrontEnd(s, f)
    && q != s.dv && q != s.top && (f == s.top <==> FrontTop(s, f, q) == q) && (f == s.dv <==> FrontDv(s, f, q) == q)
  }

  lemma FrontFacts(s: Space, ms: int, i: nat, tbase: int, tsize: nat, nb: nat)
    requires Shape(s, ms) && RegionsOk(s.segs, TopSeg(s), s.regs) && Prependable(s, i, tbase, tsize, nb)
    ensures FrontPlace(s, PrefixedSpace(s, i, tbase, nb), s.regs[i].base, tbase + nb)
  {
    hide Shape, RegionsOk, NewRegion, Granular;
    PrefixAligned(s.regs, tbase, tsize);
    OldPlaces(s, ms, tbase, tsize);
    SegmentOf(s, ms, s.regs[i].base);
    DvInside(s, ms);
    if tbase + nb in s.own { OwnIn(s, ms, tbase + nb); }
  }

  /** The chunk at `e` is the same in both spaces, but for its `pinuse` bit. */
  ghost predicate SameAt(s: Space, s': Space, e: int) {
    (e in s'.chunks <==> e in s.chunks) && SizeOf(s', e) == SizeOf(s, e) && (UsedAt(s', e) <==> UsedAt(s, e))
  }

  lemma FrontEndIn(s: Space, ms: int, i: nat, tbase: int, tsize: nat, nb: nat)
    requires Shape(s, ms) && RegionsOk(s.segs, TopSeg(s), s.regs) && Prependable(s, i, tbase, tsize, nb)
    ensures SameAt(s, PrefixedSpace(s, i, tbase, nb), FrontEnd(s, s.regs[i].base))
  {
    hide Shape, RegionsOk, NewRegion, Granular;
    PrefixAligned(s.regs, tbase, tsize);
    FrontFacts(s, ms, i, tbase, tsize, nb);
    OldPlaces(s, ms, tbase, tsize);
  }

  /** The old first chunk has left the bins, if it was in one, and the tags are written: the segment starts with a chunk
      in use of `nb` bytes and a free one. */
  lemma FrontFreed(m: Mem, m': Mem, s: Space, ms: int, i: nat, tbase: int, tsize: nat, nb: nat, f: Sizing, h: Held,
      sm: Word32, tm: Word32)
    requires HeapOk(m, s, ms) && RegionsOk(s.segs, TopSeg(s), s.regs) && Prependable(s, i, tbase, tsize, nb)
    requires HasHead(m, tbase, nb, true, true) && Mapped(m, tbase, tbase + tsize)
    requires FrontTagged(m, m', s, s.regs[i].base, tbase + nb)
    requires BinnedOk(s, f, FrontOut(s, s.regs[i].base)) && BinsHold(m, f, ms, h, sm, tm)
    requires ListOk(m, s, ms, PrefixedSpace(s, i, tbase, nb).regs)
    ensures s.regs[i].base <= FrontEnd(s, s.regs[i].base)
    ensures var q := tbase + nb; var s' := FrontSpace(s, i, tbase, nb);
      && HeapOk(m', s', ms) && SegsOk(m', s', ms) && BinsHold(m', f, ms, h, sm, tm)
      && BinnedOk(s', f, if q == s'.top || q == s'.dv then {} else {q}) && PayloadKept(m, m', Live(s))
      && tbase !in Live(s) && Live(s') == Live(s)[tbase := nb]
      && FieldsAfter(PrefixedSpace(s, i, tbase, nb), s', q, FrontEnd(s, s.regs[i].base), q, false, s'.top, s'.dv)
  {
    hide HeapOk, Shape, RegionsOk, BinsHold, BinnedOk, PayloadKept, Live, NewRegion, Rewritten, Mapped, Neighbours;
    hide PrefixedSpace, OneSpace, Replaceable, Emptied, Others, TopAfter, DvAfter, FreeEnd, FrontEnd, FrontTop, FrontDv;
    hide OneTagged, FrontTagged, ListOk, Granular;
    ShapeOf(m, s, ms);
    var F, q := s.regs[i].base, tbase + nb;
    ghost var e, s1, out := FrontEnd(s, F), PrefixedSpace(s, i, tbase, nb), FrontOut(s, F);
    ghost var top, dv := FrontTop(s, F, q), FrontDv(s, F, q);
    var m1 := m[q + HEAD := Head(F - q, true, true)];
    FrontWords(m, m', m1, s, i, tbase, tsize, nb);
    Prefixed(m, m1, s, ms, i, tbase, tsize, nb, f, out, h, sm, tm);
    PrefixedSegs(m, m1, s, ms, i, tbase, tsize, nb);
    FrontFacts(s, ms, i, tbase, tsize, nb);
    FrontEndIn(s, ms, i, tbase, tsize, nb);
    FrontTags(m, m1, m', s, s1, F, q);
    FrontLeft(s, s1, F, q);
    assert q in Live(s1);
    AroundFrom(m1, s1, ms, q, q);
    FreeReady(m1, s1, ms, f, q, q, out);
    OwnOutside(m1, s1, ms, q, q) by { AroundStarts(m1, s1, ms, q, q); }
    OneEdit(m1, m', s1, ms, q, e, false, top, dv, f, out, h, sm, tm);
    FrontLive(Live(s), tbase, nb, q, F - q);
    KeptPart(m1, m', Live(s)[tbase := nb], Live(s));
    KeptTrans(m, m1, m', Live(s));
    FrontSame(s1, q, e, top, dv);
  }

  lemma FrontSame(s: Space, q: int, e: int, top: int, dv: int)
    requires q in s.chunks && q < e
    ensures var t := OneSpace(s, q, e, false, top, dv); t.segs == s.segs && t.top == top && t.dv == dv
  {}

  lemma FrontLive(l: Sizing, tbase: int, nb: nat, q: int, n: nat)
    requires q !in l && q != tbase
    ensures l[tbase := nb][q := n] - {q} == l[tbase := nb]
  {}

  /** Which chunks have left the bins, seen from the space with the new chunks. */
  lemma FrontLeft(s: Space, s1: Space, f: int, q: int)
    requires NextOf(s1, q) == f && f in s1.chunks && f in s.chunks && (UsedAt(s1, f) <==> UsedAt(s, f))
    requires s1.top == s.top && s1.dv == s.dv
    ensures OutOf(s1, q, q, FrontOut(s, f))
  {}

  lemma FrontWords(m: Mem, m': Mem, m1: Mem, s: Space, i: nat, tbase: int, tsize: nat, nb: nat)
    requires Prependable(s, i, tbase, tsize, nb) && HasHead(m, tbase, nb, true, true) && Mapped(m, tbase, tbase + tsize)
    requires m1 == m[tbase + nb + HEAD := Head(s.regs[i].base - tbase - nb, true, true)]
    ensures KeptOutside(m, m1, tbase, tsize) && PrefixedTagged(m1, s.regs[i].base, tbase, nb) && tbase + nb + HEAD in m
  {}

  lemma FrontTags(m: Mem, m1: Mem, m': Mem, s: Space, s1: Space, f: int, q: int)
    requires q + 16 <= f <= FrontEnd(s, f) && q + HEAD in m && m1 == m[q + HEAD := Head(f - q, true, true)]
    requires FrontTagged(m, m', s, f, q) && q in s1.chunks && s1.chunks[q].pin
    requires SameAt(s, s1, FrontEnd(s, f))
    requires f == s.top <==> FrontTop(s, f, q) == q
    ensures Rewritten(m1, m', q, FrontEnd(s, f))
    ensures OneTagged(m1, m', s1.chunks, q, FrontEnd(s, f), false, FrontTop(s, f, q))
  {}
}
