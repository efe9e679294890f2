/** What memory given back to the system does to the heap: a segment whose only client chunk is free goes, or `top` gets
    smaller. */
module Shrinking {
  import opened Words
  import opened BinMap
  import opened Rings
  import opened Tries
  import opened Bins
  import opened Heap
  import opened HeapMemory
  import opened HeapEdits
  import opened Freeing
  import opened Clients
  import opened Regions
  import opened Records
  import opened Bytes
  import opened Growing

  /** All words outside `[lo, hi)` are there and as they were. */
  ghost predicate KeptApart(m: Mem, m': Mem, lo: int, hi: int) {
    forall a :: a in m && (a < lo || a >= hi) ==> a in m' && m'[a] == m[a]
  }

  /** The chunk, and the first word behind it, lie outside. */
  predicate Clear(s: Space, lo: int, hi: int, q: int) { NextOf(s, q) < lo || q >= hi }

  lemma TagApart(m: Mem, m': Mem, s: Space, ms: int, lo: int, hi: int, q: int)
    requires HeapOk(m, s, ms) && KeptApart(m, m', lo, hi) && q in s.chunks && Clear(s, lo, hi, q)
    ensures Tagged(m', s.chunks, s.top, q)
  {
    hide HeapOk, NextFits;
    FreeChunk(m, s, ms, q);
    SizePositive(m, s, ms, q);
  }

  lemma PayloadsApart(m: Mem, m': Mem, s: Space, ms: int, lo: int, hi: int)
    requires HeapOk(m, s, ms) && KeptApart(m, m', lo, hi) && forall q :: q in Live(s) ==> Clear(s, lo, hi, q)
    ensures PayloadKept(m, m', Live(s))
  {
    hide HeapOk;
    forall p: int, a: int | p in Live(s) && a in m && InPayload(p, Live(s)[p], a) ensures a in m' && m'[a] == m[a] {
      LiveWritable(m, s, ms, p);
      assert Clear(s, lo, hi, p);
    }
  }

  /** Bins whose chunks lie outside, like the state, hold what they held. */
  lemma BinsApart(m: Mem, m': Mem, s: Space, ms: int, lo: int, hi: int, s': Space, f: Sizing, h: Held, sm: Word32,
      tm: Word32)
    requires HeapOk(m, s, ms) && KeptApart(m, m', lo, hi) && FreeOnes(s, f) && HeapOk(m', s', ms) && FreeOnes(s', f)
    requires (forall q :: q in f ==> Clear(s, lo, hi, q)) && Clear(s, lo, hi, ms - 16)
    requires BinsHold(m, f, ms, h, sm, tm)
    ensures BinsHold(m', f, ms, h, sm, tm)
  {
    hide HeapOk, BinsHold;
    ChunksOf(m', s', ms, f);
    forall a | BinWord(f, ms, a) ensures SameWord(m, m', a) { BinWordApart(m, m', s, ms, lo, hi, f, a); }
    BinsUnder(m, m', f, ms, h, sm, tm);
  }

  lemma BinWordApart(m: Mem, m': Mem, s: Space, ms: int, lo: int, hi: int, f: Sizing, a: int)
    requires HeapOk(m, s, ms) && KeptApart(m, m', lo, hi) && FreeOnes(s, f) && BinWord(f, ms, a)
    requires (forall q :: q in f ==> Clear(s, lo, hi, q)) && Clear(s, lo, hi, ms - 16)
    ensures SameWord(m, m', a)
  {
    hide HeapOk, NextFits;
    ShapeOf(m, s, ms);
    OwnState(s, ms);
    if InHeaders(ms, a) {
      StateInMemory(m, s, ms);
    } else {
      var q: int :| q in f && q + FD <= a < q + f[q];
      FreeChunk(m, s, ms, q);
      assert Clear(s, lo, hi, q);
    }
  }

  // ----- a segment goes -----

  /** All of the segment of region `i`, but for its record, is one free chunk, which is in no bin. */
  ghost predicate Releasable(s: Space, ms: int, i: nat) {
    && RecordsPlaced(s, ms) && 0 < i < |s.regs| && FreeAt(s, s.regs[i].base) && s.regs[i].base != s.dv
    && NextOf(s, s.regs[i].base) == s.recs[i - 1] - 16
  }

  /** That is what `release_unused_segments` finds out. */
  lemma WholeFree(s: Space, ms: int, i: nat)
    requires Shape(s, ms) && RecordsPlaced(s, ms) && 0 < i < |s.regs|
    ensures var f := s.regs[i].base;
      && f in s.chunks && f in s.segs && f != s.top && i <= |s.recs|
      && (FreeAt(s, f) && NextOf(s, f) >= EndOf(s.regs[i]) - TOP_FOOT_SIZE ==> NextOf(s, f) == s.recs[i - 1] - 16)
  {
    hide Shape, RecordsPlaced, RegionsOk, Granular;
    PlacedRegions(s, ms);
    PlacedRecord(s, ms, i - 1);
    var f, q := s.regs[i].base, s.recs[i - 1] - 16;
    SegmentOf(s, ms, f);
    SameBase(s.segs, TopSeg(s), s.regs, 0, i);
    FirstRecord(s.segs, TopSeg(s), s.regs);
    RecordInUse(s, ms, i - 1);
    if FreeAt(s, f) { ChunksApart(s, ms, f, q); }
  }

  function ReleasedSpace(s: Space, i: nat): Space
    requires 0 < i < |s.regs| == |s.recs| + 1
  {
    var f, q := s.regs[i].base, s.recs[i - 1] - 16;
    Space(map p | p in s.chunks && s.chunks[p].seg != f :: s.chunks[p], s.segs - {f}, s.top, s.dv, s.own - {q},
          s.regs[..i] + s.regs[i + 1..], s.recs[..i - 1] + s.recs[i..])
  }

  lemma ReleasedFootprint(s: Space, i: nat)
    requires 0 < i < |s.regs| == |s.recs| + 1
    ensures Footprint(ReleasedSpace(s, i).regs) + s.regs[i].size == Footprint(s.regs)
  {
    FootprintDrop(s.regs, i);
  }

  /** The free chunk and the record are all that is in the segment. */
  lemma TwoChunks(s: Space, ms: int, i: nat, p: int)
    requires Shape(s, ms) && Releasable(s, ms, i) && p in s.chunks && s.chunks[p].seg == s.regs[i].base
    ensures i <= |s.recs| && (p == s.regs[i].base || p == s.recs[i - 1] - 16)
  {
    hide Shape, RecordsPlaced, RegionsOk, Granular;
    PlacedRegions(s, ms);
    PlacedRecord(s, ms, i - 1);
    var f, q := s.regs[i].base, s.recs[i - 1] - 16;
    InItsSegment(s, ms, p);
    SegmentOf(s, ms, f);
    if p != f && p != q {
      ChunksApart(s, ms, p, f);
      ChunksApart(s, ms, p, q);
    }
  }

  /** All other chunks lie outside the region. */
  lemma ChunkOutside(s: Space, ms: int, i: nat, p: int)
    requires Shape(s, ms) && Releasable(s, ms, i) && p in s.chunks && s.chunks[p].seg != s.regs[i].base
    ensures NextOf(s, p) + 32 <= s.regs[i].base || p >= EndOf(s.regs[i])
    ensures s.chunks[p].seg in s.segs && s.chunks[p].seg <= p < NextOf(s, p) <= s.segs[s.chunks[p].seg]
  {
    hide Shape, RecordsPlaced, RegionsOk, Granular;
    PlacedRegions(s, ms);
    InItsSegment(s, ms, p);
    SegmentOutside(s, ms, i, s.chunks[p].seg);
  }

  lemma SegmentOutside(s: Space, ms: int, i: nat, g: int)
    requires Shape(s, ms) && Releasable(s, ms, i) && g in s.segs && g != s.regs[i].base
    ensures g in s.chunks && g < s.segs[g]
    ensures s.segs[g] + 32 <= s.regs[i].base || g >= EndOf(s.regs[i])
    ensures g == TopSeg(s) ==> TopEndOf(s) + TOP_FOOT_SIZE <= s.regs[i].base || g >= EndOf(s.regs[i])
  {
    hide Shape, RecordsPlaced, RegionsOk, Granular;
    PlacedRegions(s, ms);
    var j := RegionOf(s, g);
    TwoRegions(s.segs, TopSeg(s), s.regs, i, j);
    TwoRegions(s.segs, TopSeg(s), s.regs, i, 0);
    SegmentOf(s, ms, g);
    TopBoundsHold(s, ms);
  }

  /** The state's chunk, `top` and `dv` are elsewhere. */
  lemma KeptOnes(s: Space, ms: int, i: nat)
    requires Shape(s, ms) && Releasable(s, ms, i)
    ensures s.top in s.chunks && s.chunks[s.top].seg != s.regs[i].base && i <= |s.recs|
    ensures ms - 16 in s.chunks && s.chunks[ms - 16].seg != s.regs[i].base && ms - 16 != s.recs[i - 1] - 16
    ensures s.dv != 0 ==> s.dv in s.chunks && s.chunks[s.dv].seg != s.regs[i].base
  {
    hide Shape, RecordsPlaced, RegionsOk, Granular;
    PlacedRegions(s, ms);
    PlacedRecord(s, ms, i - 1);
    RecordInUse(s, ms, i - 1);
    WholeFree(s, ms, i);
    DvInside(s, ms);
    OwnState(s, ms);
    TopBoundsHold(s, ms);
    SameBase(s.segs, TopSeg(s), s.regs, 0, i);
    FirstRecord(s.segs, TopSeg(s), s.regs);
    if s.chunks[ms - 16].seg == s.regs[i].base { TwoChunks(s, ms, i, ms - 16); }
    if s.dv != 0 && s.chunks[s.dv].seg == s.regs[i].base { TwoChunks(s, ms, i, s.dv); }
  }

  lemma ReleasedTiled(s: Space, ms: int, i: nat)
    requires Shape(s, ms) && Releasable(s, ms, i) && |s.regs| == |s.recs| + 1
    ensures var s' := ReleasedSpace(s, i); Tiled(s'.chunks, s'.segs)
  {
    hide Shape, RecordsPlaced, RegionsOk, Granular;
    var s' := ReleasedSpace(s, i);
    forall p | p in s'.chunks ensures ChunkFits(s'.chunks, s'.segs, p) { FitsAny(s, ms, p); }
    forall g | g in s'.segs ensures SegmentOk(s'.chunks, s'.segs, g) { SegmentOf(s, ms, g); }
    forall p: int, q: int | p in s'.chunks && q in s'.chunks && p < q ensures p + s'.chunks[p].size <= q {
      ChunksApart(s, ms, p, q);
    }
  }

  lemma ReleasedShape(s: Space, ms: int, i: nat)
    requires Shape(s, ms) && Releasable(s, ms, i) && |s.regs| == |s.recs| + 1
    ensures Shape(ReleasedSpace(s, i), ms)
  {
    hide Tiled, Shape, NextFits, RecordsPlaced, RegionsOk, Granular;
    ReleasedTiled(s, ms, i);
    KeptOnes(s, ms, i);
    StateOwn(s, ms);
    OwnState(s, ms);
    TopPin(s, ms);
    TopEndsSegment(s, ms);
    DvInside(s, ms);
    var s' := ReleasedSpace(s, i);
    forall p | p in s'.own ensures p in s'.chunks && s'.chunks[p].cin {
      OwnIn(s, ms, p);
      if s.chunks[p].seg == s.regs[i].base { TwoChunks(s, ms, i, p); }
    }
    forall p | p in s'.chunks && p != s.top
      ensures s'.chunks[p].size >= MIN_CHUNK_SIZE
      ensures !s'.chunks[p].cin ==>
        s'.chunks[p].pin && s'.chunks[p].seg in s'.segs && p + s'.chunks[p].size != s'.segs[s'.chunks[p].seg]
      ensures s'.chunks[p].seg in s'.segs && p + s'.chunks[p].size == s'.segs[s'.chunks[p].seg] ==> p in s'.own
    {
      OtherFacts(s, ms, p);
      RecordSegment(s, ms, i);
    }
    ShapeFrom(s', ms);
  }

  lemma TopEndsSegment(s: Space, ms: int)
    requires Shape(s, ms)
    ensures s.top in s.chunks && s.chunks[s.top].seg in s.segs && NextOf(s, s.top) == s.segs[s.chunks[s.top].seg]
  {
    hide Tiled, Coalesced, DvOk, OwnOk;
  }

  lemma RecordSegment(s: Space, ms: int, i: nat)
    requires Releasable(s, ms, i)
    ensures i <= |s.recs| && s.recs[i - 1] - 16 in s.chunks && s.chunks[s.recs[i - 1] - 16].seg == s.regs[i].base
  {
    hide RecordsPlaced;
    PlacedRegions(s, ms);
    PlacedRecord(s, ms, i - 1);
  }

  lemma ReleasedHeap(m: Mem, m': Mem, s: Space, ms: int, i: nat)
    requires HeapOk(m, s, ms) && Releasable(s, ms, i) && |s.regs| == |s.recs| + 1
    requires KeptApart(m, m', s.regs[i].base, EndOf(s.regs[i]))
    ensures HeapOk(m', ReleasedSpace(s, i), ms)
  {
    hide HeapOk, Shape, Tagged, Backed, NextFits, RecordsPlaced, RegionsOk, KeptApart, EndOf;
    ShapeOf(m, s, ms);
    ReleasedShape(s, ms, i);
    var s' := ReleasedSpace(s, i);
    forall p | p in s'.chunks ensures Tagged(m', s'.chunks, s'.top, p) {
      ChunkOutside(s, ms, i, p);
      TagApart(m, m', s, ms, s.regs[i].base, EndOf(s.regs[i]), p);
      SameTag(m', s.chunks, s'.chunks, s.top, p);
    }
    ReleasedBacked(m, m', s, ms, i);
    HeapFrom(m', s', ms);
  }

  lemma ReleasedBacked(m: Mem, m': Mem, s: Space, ms: int, i: nat)
    requires HeapOk(m, s, ms) && Releasable(s, ms, i) && |s.regs| == |s.recs| + 1
    requires KeptApart(m, m', s.regs[i].base, EndOf(s.regs[i]))
    ensures var s' := ReleasedSpace(s, i); Backed(m', s'.chunks, s'.segs, s'.top)
  {
    hide HeapOk, Shape, NextFits, RecordsPlaced, RegionsOk, Tiled, Tags, Coalesced, TopOk, OwnOk, DvOk;
    HeapShape(m, s, ms);
    KeptOnes(s, ms, i);
    TopBase(s, ms, i);
    var s' := ReleasedSpace(s, i);
    forall g | g in s'.segs ensures Mapped(m', g, s'.segs[g] + 16) {
      SegmentOutside(s, ms, i, g);
      assert Mapped(m, g, s.segs[g] + 16);
    }
  }

  lemma TopBase(s: Space, ms: int, i: nat)
    requires Shape(s, ms) && Releasable(s, ms, i)
    ensures TopSeg(s) <= s.top < TopEndOf(s)
    ensures TopEndOf(s) + TOP_FOOT_SIZE <= s.regs[i].base || TopSeg(s) >= EndOf(s.regs[i])
  {
    hide Shape, RecordsPlaced, RegionsOk, Granular;
    PlacedRegions(s, ms);
    TopBoundsHold(s, ms);
    KeptOnes(s, ms, i);
    SegmentOutside(s, ms, i, TopSeg(s));
  }

  /** What the clients and the bins hold is not touched. */
  lemma ReleasedRest(m: Mem, m': Mem, s: Space, ms: int, i: nat, f: Sizing, h: Held, sm: Word32, tm: Word32)
    requires HeapOk(m, s, ms) && Releasable(s, ms, i) && |s.regs| == |s.recs| + 1
    requires KeptApart(m, m', s.regs[i].base, EndOf(s.regs[i])) && HeapOk(m', ReleasedSpace(s, i), ms)
    requires BinnedOk(s, f, {s.regs[i].base}) && BinsHold(m, f, ms, h, sm, tm)
    ensures BinnedOk(ReleasedSpace(s, i), f, {}) && BinsHold(m', f, ms, h, sm, tm)
    ensures Live(ReleasedSpace(s, i)) == Live(s) && PayloadKept(m, m', Live(s))
  {
    hide HeapOk, Shape, RecordsPlaced, RegionsOk, KeptApart, BinsHold, PayloadKept, Granular;
    ShapeOf(m, s, ms);
    KeptOnes(s, ms, i);
    RecordInUse(s, ms, i - 1);
    var s' := ReleasedSpace(s, i);
    forall p | p in s.chunks && s.chunks[p].seg == s.regs[i].base
      ensures p == s.regs[i].base || p == s.recs[i - 1] - 16
    {
      TwoChunks(s, ms, i, p);
    }
    forall p | p in s.chunks && s.chunks[p].seg != s.regs[i].base
      ensures Clear(s, s.regs[i].base, EndOf(s.regs[i]), p)
    {
      ChunkOutside(s, ms, i, p);
    }
    RecordSegment(s, ms, i);
    PlacedRegions(s, ms);
    WholeFree(s, ms, i);
    SegmentOf(s, ms, s.regs[i].base);
    forall p ensures p in f <==> p in s'.chunks && !s'.chunks[p].cin && p != s'.top && p != s'.dv {
      if p in s.chunks && s.chunks[p].seg == s.regs[i].base { assert p == s.regs[i].base || s.chunks[p].cin; }
    }
    assert Live(s') == Live(s);
    BinnedFree(s, f, {s.regs[i].base});
    BinnedFree(s', f, {});
    BinsApart(m, m', s, ms, s.regs[i].base, EndOf(s.regs[i]), s', f, h, sm, tm);
    PayloadsApart(m, m', s, ms, s.regs[i].base, EndOf(s.regs[i]));
  }

  // ----- and its record -----

  lemma ReleasedLists(s: Space, i: nat)
    requires 0 < i < |s.regs| == |s.recs| + 1
    ensures var s' := ReleasedSpace(s, i);
      && |s'.regs| == |s.regs| - 1 && |s'.recs| == |s.recs| - 1
      && (forall k :: 0 <= k < |s'.regs| ==> s'.regs[k] == s.regs[if k < i then k else k + 1])
      && (forall k :: 0 <= k < |s'.recs| ==> s'.recs[k] == s.recs[if k < i - 1 then k else k + 1])
      && (forall k :: 0 <= k < |s'.recs| && k + 1 != i - 1 ==>
            NextRecord(s'.recs, k) == NextRecord(s.recs, if k < i - 1 then k else k + 1))
      && (i > 1 ==> NextRecord(s'.recs, i - 2) == NextRecord(s.recs, i - 1))
  {}

  function RegionsBut(r: seq<Region>, i: nat): (r': seq<Region>)
    requires i < |r|
    ensures |r'| == |r| - 1 && forall j :: 0 <= j < |r'| ==> r'[j] == r[if j < i then j else j + 1]
  {
    r[..i] + r[i + 1..]
  }

  lemma WithoutFits(g: Segments, topSeg: int, r: seq<Region>, i: nat)
    requires RegionsOk(g, topSeg, r) && 0 < i < |r|
    ensures forall j :: 0 <= j < |r| - 1 ==> RegionOk(g - {r[i].base}, RegionsBut(r, i)[j], 32)
  {
    hide RegionsBut, RegionsApart, Granular;
    forall j | 0 <= j < |r| - 1 ensures RegionOk(g - {r[i].base}, RegionsBut(r, i)[j], 32) {
      var k := if j < i then j else j + 1;
      assert RegionOk(g, r[k], 32);
      SameBase(g, topSeg, r, i, k);
    }
  }

  lemma WithoutCovers(g: Segments, topSeg: int, r: seq<Region>, i: nat, f: int)
    requires RegionsOk(g, topSeg, r) && 0 < i < |r| && f in g && f != r[i].base
    ensures exists j :: 0 <= j < |r| - 1 && RegionsBut(r, i)[j].base == f
  {
    hide RegionsBut, RegionOk, RegionsApart;
    var k :| 0 <= k < |r| && r[k].base == f;
    assert RegionsBut(r, i)[if k < i then k else k - 1].base == f;
  }

  lemma WithoutRegions(g: Segments, topSeg: int, r: seq<Region>, i: nat)
    requires RegionsOk(g, topSeg, r) && 0 < i < |r| && r[i].base != topSeg
    ensures RegionsOk(g - {r[i].base}, topSeg, RegionsBut(r, i))
  {
    hide RegionsBut, RegionOk, RegionsApart;
    var r' := RegionsBut(r, i);
    WithoutFits(g, topSeg, r, i);
    forall j, k | 0 <= j < k < |r'| ensures RegionsApart(r'[j], r'[k]) {
      assert RegionsApart(r[if j < i then j else j + 1], r[if k < i then k else k + 1]);
    }
    forall f | f in g - {r[i].base} ensures exists j :: 0 <= j < |r'| && r'[j].base == f {
      WithoutCovers(g, topSeg, r, i, f);
    }
  }

  lemma ReleasedRegions(s: Space, ms: int, i: nat)
    requires Shape(s, ms) && Releasable(s, ms, i) && |s.regs| == |s.recs| + 1
    ensures var s' := ReleasedSpace(s, i); RegionsOk(s'.segs, TopSeg(s'), s'.regs)
  {
    hide Shape, RecordsPlaced, RegionsOk;
    PlacedRegions(s, ms);
    KeptOnes(s, ms, i);
    ReleasedSame(s, i);
    assert ReleasedSpace(s, i).regs == RegionsBut(s.regs, i);
    WithoutRegions(s.segs, TopSeg(s), s.regs, i);
  }

  lemma ReleasedSame(s: Space, i: nat)
    requires 0 < i < |s.regs| == |s.recs| + 1 && s.top in s.chunks && s.chunks[s.top].seg != s.regs[i].base
    ensures var s' := ReleasedSpace(s, i); s'.segs == s.segs - {s.regs[i].base} && TopSeg(s') == TopSeg(s)
  {}

  lemma ReleasedRecordChunk(s: Space, ms: int, i: nat, k: nat)
    requires Shape(s, ms) && Releasable(s, ms, i) && |s.regs| == |s.recs| + 1 && k + 1 < |s.recs|
    ensures var s' := ReleasedSpace(s, i); k + 1 < |s'.regs| && k < |s'.recs| && RecordChunk(s', ms, k)
  {
    hide Shape, RecordsPlaced, RegionsOk, Granular;
    PlacedRegions(s, ms);
    var j := if k < i - 1 then k else k + 1;
    PlacedRecord(s, ms, j);
    PlacedRecord(s, ms, i - 1);
    SameBase(s.segs, TopSeg(s), s.regs, i, j + 1);
    ReleasedLists(s, i);
  }

  /** Memory without the region, and the record before it linked to the one behind it. */
  ghost predicate Relinked(m: Mem, m': Mem, s: Space, i: nat)
    requires 0 < i < |s.regs| == |s.recs| + 1
  {
    if i == 1 then m' == m
    else s.recs[i - 2] + 16 in m && m' == m[s.recs[i - 2] + 16 := Data(NextRecord(s.recs, i - 1))]
  }

  lemma ReleasedRecord(m: Mem, m1: Mem, m': Mem, s: Space, ms: int, i: nat, j: nat)
    requires HeapOk(m, s, ms) && SegsOk(m, s, ms) && Releasable(s, ms, i) && |s.regs| == |s.recs| + 1
    requires KeptApart(m, m1, s.regs[i].base, EndOf(s.regs[i])) && Relinked(m1, m', s, i) && j < |s.recs| && j != i - 1
    ensures RecordInMem(m', s.recs[j], s.regs[j + 1],
        if j + 1 == i - 1 then NextRecord(s.recs, i - 1) else NextRecord(s.recs, j))
  {
    hide HeapOk, Shape, RecordsPlaced, RegionsOk, Granular;
    ShapeOf(m, s, ms);
    PlacedRegions(s, ms);
    ListRecord(m, s, ms, s.regs, j);
    PlacedRecord(s, ms, j);
    RecordOutside(s, ms, i, j);
    if i > 1 && j != i - 2 { OtherRecord(m, s, ms, j, i - 2); PlacedRecord(s, ms, i - 2); }
    var lo := s.recs[j] + 32;
    forall x: nat | WordAt(lo, x) + HEAD < EndOf(s.regs[j + 1]) ensures HasHead(m', WordAt(lo, x), 8, true, true) {
      assert HasHead(m, WordAt(lo, x), 8, true, true);
    }
  }

  lemma RecordOutside(s: Space, ms: int, i: nat, j: nat)
    requires Shape(s, ms) && Releasable(s, ms, i) && |s.regs| == |s.recs| + 1 && j < |s.recs| && j != i - 1
    ensures EndOf(s.regs[j + 1]) <= s.regs[i].base || s.recs[j] - 16 >= EndOf(s.regs[i])
  {
    hide Shape, RecordsPlaced, RegionsOk, Granular;
    PlacedRegions(s, ms);
    PlacedRecord(s, ms, j);
    ChunkInSegment(s, ms, s.recs[j] - 16);
    TwoRegions(s.segs, TopSeg(s), s.regs, j + 1, i);
  }

  lemma ReleasedOnly(m: Mem, s: Space, ms: int, i: nat)
    requires SegsOk(m, s, ms) && 0 < i < |s.regs| == |s.recs| + 1
    ensures OnlyRecords(ReleasedSpace(s, i), ms)
  {
    hide RegionsOk, RecordChunk, Listed;
    assert OnlyRecords(s, ms);
    var s' := ReleasedSpace(s, i);
    forall p | p in s'.own && p != ms - 16 ensures p + 16 in s'.recs {
      var k :| 0 <= k < |s.recs| && s.recs[k] == p + 16;
      assert s'.recs[if k < i - 1 then k else k - 1] == p + 16;
    }
  }

  lemma ReleasedSegs(m: Mem, m1: Mem, m': Mem, s: Space, ms: int, i: nat)
    requires HeapOk(m, s, ms) && SegsOk(m, s, ms) && Releasable(s, ms, i) && |s.regs| == |s.recs| + 1
    requires KeptApart(m, m1, s.regs[i].base, EndOf(s.regs[i])) && Relinked(m1, m', s, i)
    ensures SegsOk(m', ReleasedSpace(s, i), ms)
  {
    hide HeapOk, Shape, RecordsPlaced, RegionsOk, Granular, RecordInMem, RecordChunk, KeptApart, Relinked;
    hide ReleasedSpace;
    hide OnlyRecords;
    ShapeOf(m, s, ms);
    ReleasedLists(s, i);
    ReleasedRegions(s, ms, i);
    var s' := ReleasedSpace(s, i);
    forall k | 0 <= k < |s'.recs| ensures RecordChunk(s', ms, k) { ReleasedRecordChunk(s, ms, i, k); }
    ReleasedOnly(m, s, ms, i);
    PlacedFrom(s', ms);
    forall k: nat | k < |s'.recs| ensures Listed(m', s', s'.regs, k) {
      ReleasedRecord(m, m1, m', s, ms, i, if k < i - 1 then k else k + 1);
    }
  }

  /** Relinking leaves everything else as it is. */
  lemma RelinkedOk(m: Mem, m1: Mem, m': Mem, s: Space, ms: int, i: nat, f: Sizing, h: Held, sm: Word32, tm: Word32)
    requires HeapOk(m, s, ms) && SegsOk(m, s, ms) && Releasable(s, ms, i) && |s.regs| == |s.recs| + 1
    requires var s' := ReleasedSpace(s, i);
      HeapOk(m1, s', ms) && FreeOnes(s', f) && BinsHold(m1, f, ms, h, sm, tm)
    requires Relinked(m1, m', s, i)
    ensures var s' := ReleasedSpace(s, i);
      HeapOk(m', s', ms) && BinsHold(m', f, ms, h, sm, tm) && PayloadKept(m1, m', Live(s'))
  {
    hide HeapOk, Shape, RecordsPlaced, RegionsOk, Granular, BinsHold, PayloadKept, Live, ListOk, ReleasedSpace;
    hide FreeOnes;
    var s' := ReleasedSpace(s, i);
    if i == 1 {
      NothingWritten(m1, s');
    } else {
      ShapeOf(m, s, ms);
      RecordInUse(s, ms, i - 2);
      ReleasedOwn(s, ms, i);
      OwnWrote(m1, m', s', ms, s.recs[i - 2] - 16, f, h, sm, tm);
    }
  }

  lemma ReleasedOwn(s: Space, ms: int, i: nat)
    requires Shape(s, ms) && Releasable(s, ms, i) && |s.regs| == |s.recs| + 1 && i > 1
    ensures var s', p := ReleasedSpace(s, i), s.recs[i - 2] - 16;
      p in s'.own && SizeOf(s', p) == RECORD_SIZE && p != ms - 16
  {
    hide Shape, RecordsPlaced, RegionsOk, Granular;
    PlacedRegions(s, ms);
    PlacedRecord(s, ms, i - 1);
    PlacedRecord(s, ms, i - 2);
    SameBase(s.segs, TopSeg(s), s.regs, i, i - 1);
  }

  /** A segment is gone, for the heap, the bins, the records and the clients. */
  lemma Released(m: Mem, m1: Mem, m': Mem, s: Space, ms: int, i: nat, f: Sizing, h: Held, sm: Word32, tm: Word32)
    requires HeapOk(m, s, ms) && SegsOk(m, s, ms) && Releasable(s, ms, i) && |s.regs| == |s.recs| + 1
    requires KeptApart(m, m1, s.regs[i].base, EndOf(s.regs[i])) && Relinked(m1, m', s, i)
    requires BinnedOk(s, f, {s.regs[i].base}) && BinsHold(m, f, ms, h, sm, tm)
    ensures var s' := ReleasedSpace(s, i);
      && HeapOk(m', s', ms) && SegsOk(m', s', ms) && BinnedOk(s', f, {}) && BinsHold(m', f, ms, h, sm, tm)
      && Live(s') == Live(s) && PayloadKept(m, m', Live(s))
  {
    hide HeapOk, Shape, RecordsPlaced, RegionsOk, Granular, BinsHold, PayloadKept, Live, ListOk, ReleasedSpace;
    hide BinnedOk;
    hide KeptApart, Relinked;
    var s' := ReleasedSpace(s, i);
    ReleasedHeap(m, m1, s, ms, i);
    ReleasedRest(m, m1, s, ms, i, f, h, sm, tm);
    BinnedFree(s', f, {});
    RelinkedOk(m, m1, m', s, ms, i, f, h, sm, tm);
    ReleasedSegs(m, m1, m', s, ms, i);
    KeptTrans(m, m1, m', Live(s));
  }

  // ----- `top` gets smaller -----

  function TrimmedSpace(s: Space, extra: nat): Space
    requires s.top in s.chunks && s.regs != [] && extra <= s.chunks[s.top].size && extra <= s.regs[0].size
  {
    var c, r := s.chunks[s.top], s.regs[0];
    Space(s.chunks[s.top := Chunk(c.size - extra, c.cin, c.pin, c.seg)], s.segs[c.seg := TopEndOf(s) - extra],
          s.top, s.dv, s.own, s.regs[0 := Region(r.base, r.size - extra, r.pinned)], s.recs)
  }

  /** Some units of memory less, but not all of `top`. */
  ghost predicate Trimmable(s: Space, extra: nat) {
    && s.top in s.chunks && s.regs != [] && extra + 16 <= s.chunks[s.top].size && extra <= s.regs[0].size
    && extra % 16 == 0 && Granular(extra)
  }

  lemma TrimmedFields(s: Space, extra: nat)
    requires Trimmable(s, extra)
    ensures var s' := TrimmedSpace(s, extra);
      Footprint(s'.regs) + extra == Footprint(s.regs) && s'.top == s.top && |s'.regs| == |s.regs|
  {
    var r := s.regs[0];
    FootprintSet(s.regs, 0, Region(r.base, r.size - extra, r.pinned));
  }

  lemma TopAlone(s: Space, ms: int, q: int)
    requires Shape(s, ms) && RegionsOk(s.segs, TopSeg(s), s.regs) && q in s.chunks && q != s.top
    ensures Clear(s, s.top + HEAD, TopEndOf(s) + TOP_FOOT_SIZE, q)
  {
    hide Shape, RegionsOk;
    Elsewhere(s, ms, q);
  }

  lemma TrimmedTiled(s: Space, ms: int, extra: nat)
    requires Shape(s, ms) && RegionsOk(s.segs, TopSeg(s), s.regs) && Trimmable(s, extra)
    ensures var s' := TrimmedSpace(s, extra); Tiled(s'.chunks, s'.segs)
  {
    hide Shape, RegionsOk, NextFits, Granular;
    TopBoundsHold(s, ms);
    var s' := TrimmedSpace(s, extra);
    var d := s'.chunks;
    forall p: int, q: int | p in d && q in d && p < q ensures p + d[p].size <= q { ChunksApart(s, ms, p, q); }
    forall p | p in d ensures ChunkFits(d, s'.segs, p) { TrimmedFits(s, ms, extra, p); }
    forall f | f in s'.segs ensures SegmentOk(d, s'.segs, f) {
      SegmentOf(s, ms, f);
      if f == TopSeg(s) && s'.segs[f] in s.chunks { ChunksApart(s, ms, s.top, s'.segs[f]); }
    }
  }

  lemma TrimmedFits(s: Space, ms: int, extra: nat, p: int)
    requires Shape(s, ms) && RegionsOk(s.segs, TopSeg(s), s.regs) && Trimmable(s, extra) && p in s.chunks
    ensures var s' := TrimmedSpace(s, extra); ChunkFits(s'.chunks, s'.segs, p)
  {
    hide Shape, RegionsOk, Granular;
    TopBoundsHold(s, ms);
    if p != s.top {
      TopAlone(s, ms, p);
      InItsSegment(s, ms, p);
      OtherFacts(s, ms, p);
      ChunksApart(s, ms, p, s.top);
    }
  }

  lemma TrimmedShape(s: Space, ms: int, extra: nat)
    requires Shape(s, ms) && RegionsOk(s.segs, TopSeg(s), s.regs) && Trimmable(s, extra)
    ensures Shape(TrimmedSpace(s, extra), ms)
  {
    hide RegionsOk, Tiled, Shape, NextFits, Granular;
    TrimmedTiled(s, ms, extra);
    TopBoundsHold(s, ms);
    DvInside(s, ms);
    OwnState(s, ms);
    StateOwn(s, ms);
    var s' := TrimmedSpace(s, extra);
    forall p | p in s.own ensures p in s'.chunks && s'.chunks[p].cin { OwnIn(s, ms, p); }
    forall p | p in s'.chunks && p != s.top
      ensures s'.chunks[p].size >= MIN_CHUNK_SIZE
      ensures !s'.chunks[p].cin ==>
        s'.chunks[p].pin && s'.chunks[p].seg in s'.segs && p + s'.chunks[p].size != s'.segs[s'.chunks[p].seg]
      ensures s'.chunks[p].seg in s'.segs && p + s'.chunks[p].size == s'.segs[s'.chunks[p].seg] ==> p in s.own
    {
      TopAlone(s, ms, p);
      InItsSegment(s, ms, p);
      OtherFacts(s, ms, p);
      ChunksApart(s, ms, p, s.top);
    }
    ShapeFrom(s', ms);
  }

  /** The tags of the smaller `top`. */
  ghost predicate TrimmedTagged(m: Mem, s: Space, extra: nat) {
    && SizeOf(s, s.top) >= extra && HasHead(m, s.top, SizeOf(s, s.top) - extra, false, true)
    && HasHead(m, TopEndOf(s) - extra, TOP_FOOT_SIZE, false, false)
    && Mapped(m, s.top, TopEndOf(s) - extra + TOP_FOOT_SIZE)
  }

  lemma TrimmedHeap(m: Mem, m': Mem, s: Space, ms: int, extra: nat)
    requires HeapOk(m, s, ms) && RegionsOk(s.segs, TopSeg(s), s.regs) && Trimmable(s, extra)
    requires KeptApart(m, m', s.top + HEAD, TopEndOf(s) + TOP_FOOT_SIZE) && TrimmedTagged(m', s, extra)
    ensures HeapOk(m', TrimmedSpace(s, extra), ms)
  {
    hide HeapOk, Shape, RegionsOk, KeptApart, Tagged, Backed, NextFits, Granular;
    ShapeOf(m, s, ms);
    TopBoundsHold(s, ms);
    var s' := TrimmedSpace(s, extra);
    TrimmedShape(s, ms, extra);
    TrimmedBacked(m, m', s, ms, extra);
    forall p | p in s'.chunks ensures Tagged(m', s'.chunks, s.top, p) {
      if p != s.top {
        TopAlone(s, ms, p);
        TagApart(m, m', s, ms, s.top + HEAD, TopEndOf(s) + TOP_FOOT_SIZE, p);
        SameTag(m', s.chunks, s'.chunks, s.top, p);
      } else {
        TopTag(m', s'.chunks, s.top);
      }
    }
    HeapFrom(m', s', ms);
  }

  lemma TrimmedBacked(m: Mem, m': Mem, s: Space, ms: int, extra: nat)
    requires HeapOk(m, s, ms) && RegionsOk(s.segs, TopSeg(s), s.regs) && Trimmable(s, extra)
    requires KeptApart(m, m', s.top + HEAD, TopEndOf(s) + TOP_FOOT_SIZE) && TrimmedTagged(m', s, extra)
    ensures var s' := TrimmedSpace(s, extra); Backed(m', s'.chunks, s'.segs, s.top)
  {
    hide HeapOk, Shape, RegionsOk, NextFits, Tiled, Tags, Coalesced, TopOk, OwnOk, DvOk, Granular;
    HeapShape(m, s, ms);
    TopBoundsHold(s, ms);
    var s' := TrimmedSpace(s, extra);
    forall f | f in s'.segs ensures Mapped(m', f, s'.segs[f] + 16) {
      assert Mapped(m, f, s.segs[f] + 16);
      if f != TopSeg(s) { OtherSegment(s, ms, f); }
    }
  }

  lemma OtherSegment(s: Space, ms: int, f: int)
    requires Shape(s, ms) && RegionsOk(s.segs, TopSeg(s), s.regs) && f in s.segs && f != TopSeg(s)
    ensures s.segs[f] + 32 <= TopSeg(s) || f >= TopEndOf(s) + TOP_FOOT_SIZE
  {
    hide Shape, RegionsOk, Granular;
    TopBoundsHold(s, ms);
    var i := RecordOf(s.segs, TopSeg(s), s.regs, f);
  }

  lemma TrimmedRegions(s: Space, ms: int, extra: nat)
    requires Shape(s, ms) && RegionsOk(s.segs, TopSeg(s), s.regs) && Trimmable(s, extra)
    ensures var s' := TrimmedSpace(s, extra); RegionsOk(s'.segs, TopSeg(s'), s'.regs)
  {
    hide Shape, Granular;
    TopBoundsHold(s, ms);
    var s' := TrimmedSpace(s, extra);
    var r, r' := s.regs, s'.regs;
    forall i | 0 <= i < |r'| ensures RegionOk(s'.segs, r'[i], 32) {
      assert RegionOk(s.segs, r[i], 32);
      if i > 0 { OtherBase(s.segs, TopSeg(s), r, 0, i); } else if !r[0].pinned { GranularSum(r[0].size, extra); }
    }
    forall i, j | 0 <= i < j < |r'| ensures RegionsApart(r'[i], r'[j]) { assert RegionsApart(r[i], r[j]); }
    forall f | f in s'.segs ensures exists i :: 0 <= i < |r'| && r'[i].base == f {
      var i :| 0 <= i < |r| && r[i].base == f;
      assert r'[i].base == f;
    }
  }

  lemma TrimmedSegs(m: Mem, m': Mem, s: Space, ms: int, extra: nat)
    requires HeapOk(m, s, ms) && SegsOk(m, s, ms) && Trimmable(s, extra)
    requires KeptApart(m, m', s.top + HEAD, TopEndOf(s) + TOP_FOOT_SIZE)
    ensures SegsOk(m', TrimmedSpace(s, extra), ms)
  {
    hide HeapOk, Shape, RecordsPlaced, RegionsOk, KeptApart, Granular, RecordInMem, RecordsSame, RecordChunk;
    ShapeOf(m, s, ms);
    ListPlaced(m, s, ms, s.regs);
    PlacedRegions(s, ms);
    RecordsNotTop(m, m', s, ms);
    TrimmedRegions(s, ms, extra);
    var s' := TrimmedSpace(s, extra);
    forall k | 0 <= k < |s'.recs| ensures RecordChunk(s', ms, k) { TrimmedRecordChunk(s, ms, extra, k); }
    PlacedOnly(s, ms, s');
    PlacedFrom(s', ms);
    forall k: nat | k < |s'.recs| ensures Listed(m', s', s'.regs, k) {
      ListRecord(m, s, ms, s.regs, k);
      RecordKept(m, m', s, k, s.regs[k + 1], NextRecord(s.recs, k));
    }
  }

  lemma RecordsNotTop(m: Mem, m': Mem, s: Space, ms: int)
    requires Shape(s, ms) && RecordsPlaced(s, ms) && KeptApart(m, m', s.top + HEAD, TopEndOf(s) + TOP_FOOT_SIZE)
    ensures RecordsSame(m, m', s)
  {
    hide Shape, RecordsPlaced, RegionsOk, Granular;
    PlacedRegions(s, ms);
    TopBoundsHold(s, ms);
    forall k: nat, a: int | k < |s.recs| && RecordWord(s, k, a) && a in m ensures a in m' && m'[a] == m[a] {
      PlacedRecord(s, ms, k);
      RecordInRegion(s, ms, k, a);
      TwoRegions(s.segs, TopSeg(s), s.regs, 0, k + 1);
    }
  }

  lemma TrimmedRecordChunk(s: Space, ms: int, extra: nat, k: nat)
    requires Shape(s, ms) && RecordsPlaced(s, ms) && Trimmable(s, extra) && k < |s.recs|
    ensures k + 1 < |TrimmedSpace(s, extra).regs| && RecordChunk(TrimmedSpace(s, extra), ms, k)
  {
    hide Shape, RecordsPlaced, RegionsOk, Granular;
    PlacedRegions(s, ms);
    PlacedRecord(s, ms, k);
    TopBoundsHold(s, ms);
    RecordInUse(s, ms, k);
    OtherBase(s.segs, TopSeg(s), s.regs, 0, k + 1);
  }

  /** A smaller `top`, for the heap, the bins, the records and the clients. */
  lemma Trimmed(m: Mem, m': Mem, s: Space, ms: int, extra: nat, f: Sizing, h: Held, sm: Word32, tm: Word32)
    requires HeapOk(m, s, ms) && SegsOk(m, s, ms) && Trimmable(s, extra)
    requires KeptApart(m, m', s.top + HEAD, TopEndOf(s) + TOP_FOOT_SIZE) && TrimmedTagged(m', s, extra)
    requires BinnedOk(s, f, {}) && BinsHold(m, f, ms, h, sm, tm)
    ensures var s' := TrimmedSpace(s, extra);
      && HeapOk(m', s', ms) && SegsOk(m', s', ms) && BinnedOk(s', f, {}) && BinsHold(m', f, ms, h, sm, tm)
      && Live(s') == Live(s) && PayloadKept(m, m', Live(s))
  {
    hide HeapOk, Shape, RegionsOk, ListOk, KeptApart, TrimmedTagged, BinsHold, PayloadKept, Granular, RecordsPlaced;
    ShapeOf(m, s, ms);
    SegsRegions(m, s, ms);
    TrimmedHeap(m, m', s, ms, extra);
    TrimmedSegs(m, m', s, ms, extra);
    TopBoundsHold(s, ms);
    DvInside(s, ms);
    OwnState(s, ms);
    var s' := TrimmedSpace(s, extra);
    forall p | p in s.chunks && p != s.top
      ensures Clear(s, s.top + HEAD, TopEndOf(s) + TOP_FOOT_SIZE, p)
    {
      TopAlone(s, ms, p);
    }
    forall p ensures p in f <==> p in s'.chunks && !s'.chunks[p].cin && p != s'.top && p != s'.dv {}
    assert Live(s') == Live(s);
    BinnedFree(s, f, {});
    BinnedFree(s', f, {});
    BinsApart(m, m', s, ms, s.top + HEAD, TopEndOf(s) + TOP_FOOT_SIZE, s', f, h, sm, tm);
    PayloadsApart(m, m', s, ms, s.top + HEAD, TopEndOf(s) + TOP_FOOT_SIZE);
  }

  // ----- what the routines need to know -----

  /** The system unmaps `[lo, hi)`. */
  function Unmapped(m: Mem, lo: int, hi: int): Mem { map a | a in m && !(lo <= a < hi) :: m[a] }

  /** `dv` is forgotten and belongs to no bin yet. */
  lemma DvForgotten(m: Mem, s: Space, ms: int, f: Sizing)
    requires HeapOk(m, s, ms) && SegsOk(m, s, ms) && BinnedOk(s, f, {}) && s.dv != 0
    ensures var s' := s.(dv := 0);
      HeapOk(m, s', ms) && SegsOk(m, s', ms) && BinnedOk(s', f, {s.dv}) && Live(s') == Live(s)
  {
    hide Tiled, TopOk, Coalesced, OwnOk, Tags, Backed, ListOk;
    RecordsWithDv(m, s, ms, 0);
    HeapShape(m, s, ms);
    forall p | p in s.chunks ensures p > 0 { Positive(s, ms, p); }
  }

  /** The words read of the first chunk of a segment. */
  lemma ReleaseReads(m: Mem, s: Space, ms: int, i: nat)
    requires HeapOk(m, s, ms) && RecordsPlaced(s, ms) && 0 < i < |s.regs|
    ensures var f := s.regs[i].base; f in s.chunks && HasHead(m, f, SizeOf(s, f), UsedAt(s, f), true)
  {
    hide HeapOk, Shape, RecordsPlaced, RegionsOk, Granular;
    ShapeOf(m, s, ms);
    WholeFree(s, ms, i);
    SegmentOf(s, ms, s.regs[i].base);
    FreeChunk(m, s, ms, s.regs[i].base);
  }

  /** The space once the free chunk is in no bin and is not `dv`. */
  function Unheld(s: Space, f: int): Space { s.(dv := if s.dv == f then 0 else s.dv) }

  lemma ReleaseFinds(m: Mem, s: Space, ms: int, i: nat, b: Sizing)
    requires HeapOk(m, s, ms) && RecordsPlaced(s, ms) && 0 < i < |s.regs| && !s.regs[i].pinned && BinnedOk(s, b, {})
    requires FreeAt(s, s.regs[i].base) && NextOf(s, s.regs[i].base) >= EndOf(s.regs[i]) - TOP_FOOT_SIZE
    ensures var f := s.regs[i].base;
      && f > 0 && f in s.chunks && f != s.top && !IsSmall(SizeOf(s, f))
      && (f != s.dv ==> f in b && b[f] == SizeOf(s, f))
      && Releasable(Unheld(s, f), ms, i)
  {
    hide HeapOk, Shape, RecordsPlaced, RegionsOk, Granular;
    ShapeOf(m, s, ms);
    PlacedRegions(s, ms);
    WholeFree(s, ms, i);
    SegmentOf(s, ms, s.regs[i].base);
    LargeRegion(s, i);
    PlacedKept(s, Unheld(s, s.regs[i].base), ms);
  }

  lemma LargeRegion(s: Space, i: nat)
    requires RegionsOk(s.segs, TopSeg(s), s.regs) && i < |s.regs| && !s.regs[i].pinned
    ensures s.regs[i].size >= GRANULARITY
  {
    hide Granular;
    assert RegionOk(s.segs, s.regs[i], 32);
    GranularBounds(s.regs[i].size);
  }

  /** The record before the one that goes can be written to when the region is gone. */
  lemma UnmapReady(m: Mem, s: Space, ms: int, i: nat)
    requires HeapOk(m, s, ms) && SegsOk(m, s, ms) && Releasable(s, ms, i) && |s.regs| == |s.recs| + 1
    ensures RecordAt(s, ms, i - 1) == ms + SEG <==> i == 1
    ensures i > 1 ==> var a := s.recs[i - 2] + 16; a in m && (a < s.regs[i].base || a >= EndOf(s.regs[i]))
  {
    hide HeapOk, Shape, ListOk, RecordsPlaced, RegionsOk, Fenced, Granular;
    if i > 1 {
      ShapeOf(m, s, ms);
      RecordPlaces(m, s, ms, s.regs, i - 1);
      PlacedRecord(s, ms, i - 2);
      RecordOutside(s, ms, i, i - 2);
    }
  }

  lemma UnmapKept(m: Mem, m': Mem, s: Space, ms: int, i: nat)
    requires Releasable(s, ms, i)
    requires m' == Unmapped(m, s.regs[i].base, EndOf(s.regs[i]))
    ensures KeptApart(m, m', s.regs[i].base, EndOf(s.regs[i]))
    ensures i > 1 && |s.regs| == |s.recs| + 1 && HeapOk(m, s, ms) && SegsOk(m, s, ms) ==> s.recs[i - 2] + 16 in m'
  {
    hide RecordsPlaced, HeapOk, ListOk;
    if i > 1 && |s.regs| == |s.recs| + 1 && HeapOk(m, s, ms) && SegsOk(m, s, ms) { UnmapReady(m, s, ms, i); }
  }

  lemma RelinkedIs(m: Mem, m1: Mem, m': Mem, s: Space, ms: int, i: nat)
    requires HeapOk(m, s, ms) && SegsOk(m, s, ms) && Releasable(s, ms, i) && |s.regs| == |s.recs| + 1
    requires KeptApart(m, m1, s.regs[i].base, EndOf(s.regs[i]))
    requires m' == if i == 1 then m1 else m1[RecordAt(s, ms, i - 1) + 16 := Data(NextAt(s, ms, i))]
    ensures Relinked(m1, m', s, i)
  {
    hide HeapOk, ListOk, RecordsPlaced;
    UnmapReady(m, s, ms, i);
  }

  /** The fields of the state fit the space without the segment. */
  lemma ReleasedFields(m: Mem, s: Space, ms: int, i: nat, leastAddr: int, seg: Region, next0: int, next: int)
    requires HeapOk(m, s, ms) && Releasable(s, ms, i) && |s.regs| == |s.recs| + 1
    requires Headed(s.regs, s.recs, seg, next0) && SegsAbove(s.segs, leastAddr)
    requires next == if i == 1 then NextAt(s, ms, i) else next0
    ensures var s' := ReleasedSpace(s, i);
      && Headed(s'.regs, s'.recs, seg, next) && SegsAbove(s'.segs, leastAddr) && s'.top == s.top && s'.dv == s.dv
      && s.top in s.chunks && s.top in s'.chunks && s'.chunks[s.top] == s.chunks[s.top]
      && (s.dv != 0 ==> s.dv in s.chunks && s.dv in s'.chunks && s'.chunks[s.dv] == s.chunks[s.dv])
  {
    hide HeapOk, Shape, RecordsPlaced;
    ShapeOf(m, s, ms);
    KeptOnes(s, ms, i);
    ReleasedLists(s, i);
  }

  /** The place of the records in the list afterwards. */
  lemma ReleasedAt(s: Space, ms: int, i: nat)
    requires Releasable(s, ms, i) && |s.regs| == |s.recs| + 1
    ensures var s' := ReleasedSpace(s, i);
      && |s'.regs| == |s.regs| - 1 && |s'.regs| == |s'.recs| + 1
      && RecordAt(s', ms, i - 1) == RecordAt(s, ms, i - 1) && NextAt(s', ms, i - 1) == NextAt(s, ms, i)
  {
    hide RecordsPlaced;
    ReleasedLists(s, i);
  }

  /** Records are not null. */
  lemma NextNull(m: Mem, s: Space, ms: int, i: nat)
    requires HeapOk(m, s, ms) && SegsOk(m, s, ms) && i < |s.regs|
    ensures NextAt(s, ms, i) == 0 <==> i + 1 == |s.regs|
  {
    hide HeapOk, ListOk;
    ListLength(m, s, ms, s.regs);
    if i + 1 < |s.regs| { RecordPlaces(m, s, ms, s.regs, i + 1); }
  }

  /** Rounding up to units and taking one less leaves at least the padding. */
  lemma TrimExtra(m: Mem, s: Space, ms: int, pad: nat, extra: nat)
    requires HeapOk(m, s, ms) && SegsOk(m, s, ms) && s.top in s.chunks && s.chunks[s.top].size > pad >= TOP_FOOT_SIZE
    requires extra == ((s.chunks[s.top].size - pad + (GRANULARITY - 1)) / GRANULARITY - 1) * GRANULARITY
    ensures s.regs != [] && (extra <= s.regs[0].size ==> Trimmable(s, extra))
  {
    hide HeapOk, ListOk, RecordsPlaced, RegionsOk;
    SegsRegions(m, s, ms);
    var n := s.chunks[s.top].size - pad;
    Units(n, (n + (GRANULARITY - 1)) / GRANULARITY);
    FirstRecord(s.segs, TopSeg(s), s.regs);
  }

  lemma Units(n: nat, k: nat)
    requires n > 0 && k == (n + (GRANULARITY - 1)) / GRANULARITY
    ensures k > 0 && (k - 1) * GRANULARITY < n && (k - 1) * GRANULARITY % 16 == 0 && Granular((k - 1) * GRANULARITY)
  {
    assert (k - 1) * GRANULARITY == 16 * ((k - 1) * (GRANULARITY / 16));
    UnitMultiple(k - 1);
  }

  lemma UnitMultiple(k: nat)
    ensures Granular(k * GRANULARITY)
  {}

  lemma TrimReady(m: Mem, s: Space, ms: int, extra: nat, leastAddr: int)
    requires HeapOk(m, s, ms) && SegsOk(m, s, ms) && Trimmable(s, extra) && SegsAbove(s.segs, leastAddr)
    ensures var s' := TrimmedSpace(s, extra);
      && EndOf(s.regs[0]) == TopEndOf(s) + TOP_FOOT_SIZE && s.top + HEAD in m && TopEndOf(s) - extra + HEAD in m
      && Mapped(m, s.top, TopEndOf(s) + TOP_FOOT_SIZE) && s.top + 16 <= TopEndOf(s) - extra && s.chunks[s.top].pin
      && SegsAbove(s'.segs, leastAddr) && s'.top == s.top && s'.dv == s.dv && s'.top in s'.chunks
      && s'.chunks[s.top].size == s.chunks[s.top].size - extra
      && (s.dv != 0 ==> s.dv in s.chunks && s.dv in s'.chunks && s'.chunks[s.dv] == s.chunks[s.dv])
      && s'.recs == s.recs && s'.regs == s.regs[0 := Region(s.regs[0].base, s.regs[0].size - extra, s.regs[0].pinned)]
  {
    hide HeapOk, Shape, ListOk, RecordsPlaced, RegionsOk, Granular;
    ShapeOf(m, s, ms);
    SegsRegions(m, s, ms);
    TopBoundsHold(s, ms);
    TopFacts(m, s, ms);
    DvInside(s, ms);
  }

  /** Nothing before the end of the smaller `top` is unmapped. */
  ghost predicate TrimmedTo(m: Mem, m': Mem, s: Space, extra: nat) {
    KeptApart(m, m', TopEndOf(s) + TOP_FOOT_SIZE - extra, TopEndOf(s) + TOP_FOOT_SIZE)
  }

  lemma TrimKept(m: Mem, m': Mem, s: Space, ms: int, extra: nat)
    requires m' == Unmapped(m, TopEndOf(s) + TOP_FOOT_SIZE - extra, TopEndOf(s) + TOP_FOOT_SIZE)
    ensures TrimmedTo(m, m', s, extra)
  {}

  lemma TrimStill(m: Mem, m': Mem, s: Space, ms: int, extra: nat)
    requires HeapOk(m, s, ms) && SegsOk(m, s, ms) && Trimmable(s, extra) && TrimmedTo(m, m', s, extra)
    ensures s.top + HEAD in m' && TopEndOf(s) - extra + HEAD in m'
  {
    hide HeapOk, ListOk;
    TrimReady(m, s, ms, extra, 0) by { assert SegsAbove(s.segs, 0) by { SegsPositive(m, s, ms); } }
  }

  lemma SegsPositive(m: Mem, s: Space, ms: int)
    requires HeapOk(m, s, ms) && SegsOk(m, s, ms)
    ensures SegsAbove(s.segs, 0)
  {
    hide HeapOk, Shape, ListOk, RecordsPlaced, RegionsOk, Granular;
    ShapeOf(m, s, ms);
    SegsRegions(m, s, ms);
    forall f | f in s.segs ensures 0 <= f && s.segs[f] <= TWO64 {
      SegmentOf(s, ms, f);
      var i := RegionOf(s, f);
    }
  }

  lemma TrimWritten(m: Mem, m1: Mem, m': Mem, s: Space, ms: int, extra: nat)
    requires HeapOk(m, s, ms) && SegsOk(m, s, ms) && Trimmable(s, extra) && TrimmedTo(m, m1, s, extra)
    requires m' == m1[s.top + HEAD := Head(s.chunks[s.top].size - extra, false, true)]
                     [TopEndOf(s) - extra + HEAD := Head(TOP_FOOT_SIZE, false, false)]
    ensures KeptApart(m, m', s.top + HEAD, TopEndOf(s) + TOP_FOOT_SIZE) && TrimmedTagged(m', s, extra)
  {
    hide HeapOk, ListOk, Granular;
    SegsPositive(m, s, ms);
    TrimReady(m, s, ms, extra, 0);
  }

  lemma TopRecordFirst(m: Mem, s: Space, ms: int)
    requires HeapOk(m, s, ms) && SegsOk(m, s, ms)
    ensures s.regs != [] && SegmentHolds(s.regs[0], s.top)
    ensures forall i :: 0 < i < |s.regs| ==> !SegmentHolds(s.regs[i], s.top)
  {
    hide HeapOk, Shape, ListOk, RecordsPlaced, RegionsOk, SegmentHolds;
    ShapeOf(m, s, ms);
    SegsRegions(m, s, ms);
    TopHeld(s, ms);
  }
}
