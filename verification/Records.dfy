/** Segment records: where they are, what memory holds for them, and that no other word of the heap concerns them. */
module Records {
  import opened Words
  import opened Tries
  import opened Bins
  import opened Heap
  import opened Regions
  import opened HeapMemory
  import opened Bytes

  /** Space for one segment record, as a chunk. */
  const RECORD_SIZE: nat := 48

  /** The record of a region is its segment's last chunk; the rest of the region is for fenceposts. */
  ghost predicate RecordChunk(s: Space, ms: int, k: nat)
    requires k < |s.recs| && k + 1 < |s.regs|
  {
    var p, r := s.recs[k] - 16, s.regs[k + 1];
    && p in s.own && p != ms - 16 && p in s.chunks && s.chunks[p].size == RECORD_SIZE && s.chunks[p].seg == r.base
    && r.base in s.segs && p + RECORD_SIZE == s.segs[r.base] && (EndOf(r) == p + 80 || EndOf(r) == p + 96)
  }

  /** The allocator's own chunks are those of the state and of the records. */
  ghost predicate OnlyRecords(s: Space, ms: int) { forall p :: p in s.own && p != ms - 16 ==> p + 16 in s.recs }

  /** The regions are as described, and all but the first one have a record in their last chunk. */
  ghost predicate RecordsPlaced(s: Space, ms: int) {
    && RegionsOk(s.segs, TopSeg(s), s.regs) && |s.recs| + 1 == |s.regs| && OnlyRecords(s, ms)
    && forall k :: 0 <= k < |s.recs| ==> RecordChunk(s, ms, k)
  }

  /** The fields of a record: base, size, next record, flags. */
  ghost predicate RecordWords(m: Mem, at: int, r: Region, next: int) {
    NumAt(m, at, r.base) && NumAt(m, at + 8, r.size) && NumAt(m, at + 16, next) && NumAt(m, at + 24, Flags(r))
  }

  /** Fenceposts fill the words from `lo` up to the end of the region. */
  ghost predicate Fenced(m: Mem, lo: int, end: int) {
    forall j: nat :: WordAt(lo, j) + HEAD < end ==> HasHead(m, WordAt(lo, j), 8, true, true)
  }

  ghost predicate RecordInMem(m: Mem, at: int, r: Region, next: int) {
    RecordWords(m, at, r, next) && Fenced(m, at - 16 + RECORD_SIZE, EndOf(r))
  }

  function NextRecord(recs: seq<int>, k: nat): int { if k + 1 < |recs| then recs[k + 1] else 0 }

  ghost predicate Listed(m: Mem, s: Space, l: seq<Region>, k: nat)
    requires k < |s.recs| && k + 1 < |l| == |s.regs|
  {
    EndOf(l[k + 1]) == EndOf(s.regs[k + 1]) && RecordInMem(m, s.recs[k], l[k + 1], NextRecord(s.recs, k))
  }

  /** The records in memory are those of the list `l`, linked, each closed off by fenceposts. */
  ghost predicate ListOk(m: Mem, s: Space, ms: int, l: seq<Region>) {
    RecordsPlaced(s, ms) && |l| == |s.regs| && forall k :: 0 <= k < |s.recs| ==> Listed(m, s, l, k)
  }

  /** The records in memory are those of the regions. */
  ghost predicate SegsOk(m: Mem, s: Space, ms: int) { ListOk(m, s, ms, s.regs) }

  /** A word of record `k`, or of the fenceposts behind it. */
  ghost predicate RecordWord(s: Space, k: nat, a: int)
    requires k < |s.recs| && k + 1 < |s.regs|
  {
    var p := s.recs[k] - 16;
    p + 16 <= a < p + RECORD_SIZE || p + RECORD_SIZE + HEAD <= a < EndOf(s.regs[k + 1])
  }

  lemma PlacedOnly(s: Space, ms: int, s': Space)
    requires RecordsPlaced(s, ms) && s'.own == s.own && s'.recs == s.recs
    ensures OnlyRecords(s', ms)
  {
    hide RegionsOk, RecordChunk;
  }

  lemma PlacedRegions(s: Space, ms: int)
    requires RecordsPlaced(s, ms)
    ensures RegionsOk(s.segs, TopSeg(s), s.regs) && |s.recs| + 1 == |s.regs|
  {
    hide RegionsOk, RecordChunk;
  }

  lemma PlacedRecord(s: Space, ms: int, k: nat)
    requires RecordsPlaced(s, ms) && k < |s.recs|
    ensures k + 1 < |s.regs| && RecordChunk(s, ms, k)
  {
    hide RegionsOk, RecordChunk;
  }

  lemma ListPlaced(m: Mem, s: Space, ms: int, l: seq<Region>)
    requires ListOk(m, s, ms, l)
    ensures RecordsPlaced(s, ms) && |l| == |s.regs|
  {
    hide RecordsPlaced, Listed;
  }

  lemma ListRecord(m: Mem, s: Space, ms: int, l: seq<Region>, k: nat)
    requires ListOk(m, s, ms, l) && k < |s.recs|
    ensures k + 1 < |s.regs| == |l| && Listed(m, s, l, k)
  {
    hide RegionsOk, Listed, RecordChunk;
  }

  /** At least two fenceposts stand behind every record, within its region. */
  lemma TwoFenceposts(m: Mem, s: Space, ms: int, k: nat)
    requires SegsOk(m, s, ms) && k < |s.recs|
    ensures var lo := s.recs[k] - 16 + RECORD_SIZE;
      && HasHead(m, lo, 8, true, true) && HasHead(m, lo + 8, 8, true, true)
      && k + 1 < |s.regs| && lo + 32 <= EndOf(s.regs[k + 1])
  {
    hide RegionsOk, RecordsPlaced, RecordWords, ListOk;
    ListPlaced(m, s, ms, s.regs);
    PlacedRecord(s, ms, k);
    ListRecord(m, s, ms, s.regs, k);
    var lo := s.recs[k] - 16 + RECORD_SIZE;
    assert WordAt(lo, 0) == lo && WordAt(lo, 1) == lo + 8;
  }

  // ----- where records are -----

  lemma ChunkInSegment(s: Space, ms: int, p: int)
    requires Shape(s, ms) && p in s.chunks
    ensures s.chunks[p].seg in s.segs
    ensures 0 < s.chunks[p].seg <= p < p + s.chunks[p].size <= s.segs[s.chunks[p].seg]
  {
    hide Tiled, Coalesced, DvOk, OwnOk, TopOk, NextFits;
    NextChunk(s.chunks, s.segs, p);
    NextChunk(s.chunks, s.segs, s.chunks[p].seg);
  }

  /** Every segment has its record. */
  lemma RegionOf(s: Space, f: int) returns (i: nat)
    requires RegionsOk(s.segs, TopSeg(s), s.regs) && f in s.segs
    ensures i < |s.regs| && s.regs[i].base == f && RegionOk(s.segs, s.regs[i], 32)
  {
    i :| 0 <= i < |s.regs| && s.regs[i].base == f;
  }

  lemma TwoRegions(g: Segments, topSeg: int, r: seq<Region>, i: nat, j: nat)
    requires RegionsOk(g, topSeg, r) && i < |r| && j < |r| && i != j
    ensures RegionsApart(r[i], r[j])
  {}

  /** Every chunk but the one with the record ends before it, or lies behind the whole region. */
  lemma RecordApart(s: Space, ms: int, k: nat, q: int)
    requires Shape(s, ms) && RecordsPlaced(s, ms) && k < |s.recs| && q in s.chunks && q != s.recs[k] - 16
    ensures k + 1 < |s.regs|
    ensures q + s.chunks[q].size <= s.recs[k] - 16 || q >= EndOf(s.regs[k + 1]) > s.recs[k] + 32
  {
    hide Shape, RecordsPlaced, RegionsOk, Granular;
    PlacedRecord(s, ms, k);
    PlacedRegions(s, ms);
    var p, r := s.recs[k] - 16, s.regs[k + 1];
    ChunkInSegment(s, ms, q);
    ChunkInSegment(s, ms, p);
    ChunksApart(s, ms, p, q);
    var i := RegionOf(s, s.chunks[q].seg);
    if s.chunks[q].seg != r.base {
      TwoRegions(s.segs, TopSeg(s), s.regs, i, k + 1);
    }
  }

  lemma RecordInUse(s: Space, ms: int, k: nat)
    requires Shape(s, ms) && RecordsPlaced(s, ms) && k < |s.recs|
    ensures var p := s.recs[k] - 16; p in s.own && p in s.chunks && s.chunks[p].cin && p != ms - 16
  {
    hide Tiled, Coalesced, TopOk, RegionsOk;
    PlacedRecord(s, ms, k);
  }

  // ----- what keeps them -----

  /** The records and fenceposts are as they were. */
  ghost predicate RecordsSame(m: Mem, m': Mem, s: Space) {
    && |s.recs| < |s.regs|
    && forall k: nat, a: int :: k < |s.recs| && RecordWord(s, k, a) && a in m ==> a in m' && m'[a] == m[a]
  }

  /** The allocator's own chunks, and the segments, are as they were. */
  ghost predicate OwnSame(s: Space, s': Space) {
    && s'.segs == s.segs && s'.own == s.own && s'.regs == s.regs && s'.recs == s.recs && TopSeg(s') == TopSeg(s)
    && forall p :: p in s.own && p in s.chunks ==> OwnChunkSame(s, s', p)
  }

  ghost predicate OwnChunkSame(s: Space, s': Space, p: int)
    requires p in s.chunks
  {
    p in s'.chunks && s'.chunks[p].size == s.chunks[p].size && s'.chunks[p].seg == s.chunks[p].seg
  }

  lemma PlacedKept(s: Space, s': Space, ms: int)
    requires RecordsPlaced(s, ms) && OwnSame(s, s')
    ensures RecordsPlaced(s', ms)
  {
    hide RegionsOk;
    forall k | 0 <= k < |s'.recs| ensures RecordChunk(s', ms, k) { PlacedRecord(s, ms, k); }
  }

  lemma ListKept(m: Mem, m': Mem, s: Space, s': Space, ms: int, l: seq<Region>)
    requires ListOk(m, s, ms, l) && RecordsSame(m, m', s) && OwnSame(s, s')
    ensures ListOk(m', s', ms, l)
  {
    hide RecordsPlaced, RecordInMem, RecordsSame;
    PlacedKept(s, s', ms);
    ListPlaced(m, s, ms, l);
    PlacedRegions(s, ms);
    forall k: nat | k < |s.recs| ensures Listed(m', s', l, k) {
      ListRecord(m, s, ms, l, k);
      RecordKept(m, m', s, k, l[k + 1], NextRecord(s.recs, k));
    }
  }

  lemma RecordKept(m: Mem, m': Mem, s: Space, k: nat, r: Region, next: int)
    requires k < |s.recs| && k + 1 < |s.regs| && EndOf(r) == EndOf(s.regs[k + 1])
    requires RecordInMem(m, s.recs[k], r, next) && RecordsSame(m, m', s)
    ensures RecordInMem(m', s.recs[k], r, next)
  {
    var p := s.recs[k] - 16;
    forall a | RecordWord(s, k, a) && a in m ensures a in m' && m'[a] == m[a] {}
    assert RecordWord(s, k, p + 16) && RecordWord(s, k, p + 24) && RecordWord(s, k, p + 32) && RecordWord(s, k, p + 40);
    var lo := p + RECORD_SIZE;
    forall j: nat | WordAt(lo, j) + HEAD < EndOf(r) ensures HasHead(m', WordAt(lo, j), 8, true, true) {
      assert HasHead(m, WordAt(lo, j), 8, true, true) && RecordWord(s, k, WordAt(lo, j) + HEAD);
    }
  }

  /** What the bins write is no part of a record. */
  lemma RecordsUnderBins(m: Mem, m': Mem, s: Space, ms: int, f: Sizing, l: seq<Region>)
    requires HeapOk(m, s, ms) && ListOk(m, s, ms, l) && FreeOnes(s, f) && OnlyBins(m, m', f, ms)
    ensures ListOk(m', s, ms, l)
  {
    hide HeapOk, Shape, BinWord, ListOk, RecordsPlaced;
    ListPlaced(m, s, ms, l);
    PlacedRegions(s, ms);
    forall k: nat, a: int | k < |s.recs| && RecordWord(s, k, a) && a in m ensures a in m' && m'[a] == m[a] {
      if BinWord(f, ms, a) { BinWordNotRecord(m, s, ms, f, k, a); }
    }
    ListKept(m, m', s, s, ms, l);
  }

  lemma SegsUnderBins(m: Mem, m': Mem, s: Space, ms: int, f: Sizing)
    requires HeapOk(m, s, ms) && SegsOk(m, s, ms) && FreeOnes(s, f) && OnlyBins(m, m', f, ms)
    ensures SegsOk(m', s, ms)
  {
    hide HeapOk, ListOk, FreeOnes, OnlyBins;
    RecordsUnderBins(m, m', s, ms, f, s.regs);
  }

  lemma BinWordNotRecord(m: Mem, s: Space, ms: int, f: Sizing, k: nat, a: int)
    requires HeapOk(m, s, ms) && RecordsPlaced(s, ms) && FreeOnes(s, f) && BinWord(f, ms, a) && k < |s.recs|
    requires k + 1 < |s.regs|
    ensures !RecordWord(s, k, a)
  {
    hide HeapOk, Shape, RecordsPlaced, NextFits;
    ShapeOf(m, s, ms);
    RecordInUse(s, ms, k);
    OwnState(s, ms);
    if InHeaders(ms, a) {
      RecordApart(s, ms, k, ms - 16);
    } else {
      var q: int :| q in f && q + FD <= a < q + f[q];
      RecordApart(s, ms, k, q);
    }
  }

  // ----- the list, and changes to it -----

  /** Where `malloc_state` holds the first record. */
  const SEG: int := 888

  /** The address of record `i`. */
  function RecordAt(s: Space, ms: int, i: nat): int { if 0 < i <= |s.recs| then s.recs[i - 1] else ms + SEG }

  /** What its `next` field says. */
  function NextAt(s: Space, ms: int, i: nat): int { if i < |s.recs| then s.recs[i] else 0 }

  /** Records are at different places, none of them null. */
  lemma RecordPlaces(m: Mem, s: Space, ms: int, l: seq<Region>, i: nat)
    requires HeapOk(m, s, ms) && ListOk(m, s, ms, l) && 0 < i <= |s.recs|
    ensures i < |l| && s.recs[i - 1] != ms + SEG && s.recs[i - 1] > 16
    ensures RecordInMem(m, s.recs[i - 1], l[i], NextAt(s, ms, i))
    ensures s.recs[i - 1] - 16 in s.own && s.recs[i - 1] - 16 != ms - 16
  {
    hide HeapOk, Shape, ListOk, RecordsPlaced, RecordInMem;
    ShapeOf(m, s, ms);
    ListPlaced(m, s, ms, l);
    PlacedRegions(s, ms);
    ListRecord(m, s, ms, l, i - 1);
    RecordInUse(s, ms, i - 1);
    PlacedRecord(s, ms, i - 1);
    OwnState(s, ms);
    ChunksApart(s, ms, ms - 16, s.recs[i - 1] - 16);
    ChunkInSegment(s, ms, s.recs[i - 1] - 16);
  }

  /** Changing base and size of one record in memory, but not the end of its region. */
  lemma RecordSet(m: Mem, m': Mem, s: Space, ms: int, i: nat, r: Region)
    requires HeapOk(m, s, ms) && SegsOk(m, s, ms) && i < |s.regs| && r.pinned == s.regs[i].pinned
    requires EndOf(r) == EndOf(s.regs[i])
    requires |s.recs| + 1 == |s.regs|
    requires m' == if i == 0 then m else m[s.recs[i - 1] := Data(r.base)][s.recs[i - 1] + 8 := Data(r.size)]
    ensures ListOk(m', s, ms, s.regs[i := r])
  {
    hide HeapOk, Shape, RecordsPlaced, Fenced, EndOf;
    ListPlaced(m, s, ms, s.regs);
    var l := s.regs[i := r];
    forall k: nat | k < |s.recs| ensures Listed(m', s, l, k) {
      ListRecord(m, s, ms, s.regs, k);
      if i > 0 { RecordElsewhere(m, m', s, ms, k, i - 1, r); }
    }
  }

  lemma RecordElsewhere(m: Mem, m': Mem, s: Space, ms: int, k: nat, j: nat, r: Region)
    requires HeapOk(m, s, ms) && SegsOk(m, s, ms) && |s.recs| + 1 == |s.regs| && k < |s.recs| && j < |s.recs|
    requires r.pinned == s.regs[j + 1].pinned && EndOf(r) == EndOf(s.regs[j + 1])
    requires m' == m[s.recs[j] := Data(r.base)][s.recs[j] + 8 := Data(r.size)]
    ensures RecordInMem(m', s.recs[k], if k == j then r else s.regs[k + 1], NextRecord(s.recs, k))
  {
    hide HeapOk, Shape, RecordsPlaced;
    ShapeOf(m, s, ms);
    ListPlaced(m, s, ms, s.regs);
    ListRecord(m, s, ms, s.regs, k);
    PlacedRecord(s, ms, k);
    PlacedRecord(s, ms, j);
    if k != j { OtherRecord(m, s, ms, k, j); }
    var lo := s.recs[k] + 32;
    forall x: nat | WordAt(lo, x) + HEAD < EndOf(s.regs[k + 1]) ensures HasHead(m', WordAt(lo, x), 8, true, true) {
      assert HasHead(m, WordAt(lo, x), 8, true, true);
    }
  }

  /** Different records lie in different chunks. */
  lemma OtherRecord(m: Mem, s: Space, ms: int, k: nat, j: nat)
    requires HeapOk(m, s, ms) && RecordsPlaced(s, ms) && k < |s.recs| && j < |s.recs| && k != j
    ensures k + 1 < |s.regs| && (s.recs[j] + 32 <= s.recs[k] - 16 || s.recs[j] - 16 >= EndOf(s.regs[k + 1]))
  {
    hide HeapOk, Shape, RecordsPlaced, RegionsOk, Granular;
    ShapeOf(m, s, ms);
    PlacedRegions(s, ms);
    PlacedRecord(s, ms, k);
    PlacedRecord(s, ms, j);
    RecordInUse(s, ms, j);
    if s.recs[j] == s.recs[k] {
      SameBase(s.segs, TopSeg(s), s.regs, k + 1, j + 1);
    }
    RecordApart(s, ms, k, s.recs[j] - 16);
  }

  lemma SameBase(g: Segments, topSeg: int, r: seq<Region>, i: nat, j: nat)
    requires RegionsOk(g, topSeg, r) && i < |r| && j < |r| && i != j
    ensures r[i].base != r[j].base
  {
    assert RegionOk(g, r[i], 32) && RegionOk(g, r[j], 32);
    TwoRegions(g, topSeg, r, i, j);
  }

  lemma ListLength(m: Mem, s: Space, ms: int, l: seq<Region>)
    requires ListOk(m, s, ms, l)
    ensures |s.regs| == |s.recs| + 1 == |l|
  {
    hide RecordsPlaced, Listed;
    ListPlaced(m, s, ms, l);
    PlacedRegions(s, ms);
  }

  lemma RecordStorable(m: Mem, r: Region, sp: int, next: int)
    requires RecordInMem(m, sp, r, next)
    ensures sp in m && sp + 8 in m && sp + 16 in m
  {}

  lemma SegsRegions(m: Mem, s: Space, ms: int)
    requires SegsOk(m, s, ms)
    ensures RecordsPlaced(s, ms) && RegionsOk(s.segs, TopSeg(s), s.regs) && |s.regs| == |s.recs| + 1
  {
    hide RecordsPlaced, Listed;
    ListPlaced(m, s, ms, s.regs);
    PlacedRegions(s, ms);
  }
}
