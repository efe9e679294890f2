/** The memory regions that an mspace has obtained, as its segment records describe them. */
module Regions {
  import opened Words
  import opened Heap

  /** `EXTERN_BIT` and `USE_MMAP_BIT` */
  const EXTERN: nat := 8
  const MMAPPED: nat := 1

  /** The unit in which memory is obtained from the system and given back. */
  const GRANULARITY: nat := 0x1_0000

  /** A segment record. `pinned` stands for the flag of a segment whose memory the caller supplied; all others have been
      mapped by the system. */
  datatype Region = Region(base: int, size: nat, pinned: bool)

  /** What the system says to a call: whether it does what is asked, and for a new mapping where that is and what the
      words in it are. */
  datatype Answer = Answer(yes: bool, base: int, words: Mem)

  /** The answer to call `k`; a system that has said all refuses. */
  function Said(a: seq<Answer>, k: nat): Answer { if k < |a| then a[k] else Answer(false, 0, map[]) }

  function Flags(r: Region): nat { if r.pinned then EXTERN else MMAPPED }

  function EndOf(r: Region): int { r.base + r.size }

  predicate Granular(size: nat) { size % GRANULARITY == 0 }

  lemma GranularBounds(size: nat)
    requires Granular(size)
    ensures size % 16 == 0 && (size > 0 ==> size >= GRANULARITY)
  {
    var q := size / GRANULARITY;
    assert size == GRANULARITY * q;
  }

  lemma NoUnits()
    ensures Granular(0)
  {}

  lemma GranularSum(a: nat, b: nat)
    requires Granular(a) && Granular(b)
    ensures Granular(a + b) && (b <= a ==> Granular(a - b))
  {}

  /** Behind the last chunk of a segment there is room for two fenceposts at least; behind `top`, for
      `TOP_FOOT_SIZE`. */
  ghost predicate RegionOk(g: Segments, r: Region, foot: nat) {
    && r.base in g && r.base < g[r.base] && g[r.base] + foot <= EndOf(r) <= TWO64
    && r.size < 0x100_0000_0000 && (!r.pinned ==> Granular(r.size))
  }

  /** `segment_holds` */
  predicate SegmentHolds(r: Region, a: int) { r.base <= a < EndOf(r) }

  lemma EndIs(r: Region)
    ensures EndOf(r) == r.base + r.size
  {}

  predicate RegionsApart(a: Region, b: Region) { EndOf(a) <= b.base || EndOf(b) <= a.base }

  /** One record for every segment, that of `top` first, and no two regions overlap. */
  ghost predicate RegionsOk(g: Segments, topSeg: int, r: seq<Region>) {
    && r != [] && r[0].base == topSeg && topSeg in g && g[topSeg] + TOP_FOOT_SIZE == EndOf(r[0])
    && (forall i :: 0 <= i < |r| ==> RegionOk(g, r[i], 32))
    && (forall i, j :: 0 <= i < j < |r| ==> RegionsApart(r[i], r[j]))
    && (forall f :: f in g ==> exists i :: 0 <= i < |r| && r[i].base == f)
  }

  /** A region that the system can grant: aligned, and apart from all regions obtained so far. */
  predicate NewRegion(r: seq<Region>, tbase: int, tsize: nat) {
    && tbase > 0 && tbase % 16 == 0 && GRANULARITY <= tsize < 0x100_0000_0000 && tsize % 16 == 0 && Granular(tsize)
    && tbase + tsize <= TWO64
    && forall i :: 0 <= i < |r| ==> RegionsApart(r[i], Region(tbase, tsize, false))
  }

  /** `footprint`: how many bytes the regions have in all. */
  function Footprint(r: seq<Region>): nat { if r == [] then 0 else r[0].size + Footprint(r[1..]) }

  lemma {:induction false} FootprintSet(r: seq<Region>, i: nat, x: Region)
    requires i < |r|
    ensures Footprint(r[i := x]) + r[i].size == Footprint(r) + x.size
  {
    if i == 0 {
      assert r[i := x][1..] == r[1..];
    } else {
      assert r[i := x][1..] == r[1..][i - 1 := x];
      FootprintSet(r[1..], i - 1, x);
    }
  }

  lemma {:induction false} FootprintDrop(r: seq<Region>, i: nat)
    requires i < |r|
    ensures Footprint(r[..i] + r[i + 1..]) + r[i].size == Footprint(r)
  {
    var r' := r[..i] + r[i + 1..];
    if i == 0 {
      assert r' == r[1..];
    } else {
      assert r'[1..] == r[1..][..i - 1] + r[1..][i..];
      FootprintDrop(r[1..], i - 1);
    }
  }
}
