/** How chunks tile the segments of an mspace, and what replacing neighbouring chunks by others keeps. */
module Heap {
  import opened Words

  /** What the boundary tags say of a chunk: its size, and whether it and the chunk before it are in use.
      `seg` is the first chunk of the segment that it lies in. */
  datatype Chunk = Chunk(size: nat, cin: bool, pin: bool, seg: int)

  type Layout = map<int, Chunk>

  /** For the first chunk of every segment, where the last chunk of that segment ends. */
  type Segments = map<int, int>

  /** The next chunk starts where this one ends, and its `pinuse` bit agrees with this one's `cinuse` bit. */
  ghost predicate NextFits(c: Layout, p: int)
    requires p in c
  {
    var n := p + c[p].size;
    n in c && c[n].pin == c[p].cin && c[n].seg == c[p].seg
  }

  ghost predicate ChunkFits(c: Layout, g: Segments, p: int)
    requires p in c
  {
    && p % 16 == 0 && c[p].size % 16 == 0 && c[p].size >= 16
    && c[p].seg in g && c[p].seg <= p && p + c[p].size <= g[c[p].seg]
    && (p + c[p].size == g[c[p].seg] || NextFits(c, p))
  }

  ghost predicate SegmentOk(c: Layout, g: Segments, f: int)
    requires f in g
  {
    f > 0 && f in c && c[f].seg == f && c[f].pin && g[f] !in c && g[f] - f < 0x100_0000_0000
  }

  ghost predicate Disjoint(c: Layout) { forall p: int, q: int :: p in c && q in c && p < q ==> p + c[p].size <= q }

  /** The chunks tile every segment from its first chunk to its end. */
  ghost predicate Tiled(c: Layout, g: Segments) {
    && (forall f :: f in g ==> SegmentOk(c, g, f))
    && Disjoint(c)
    && (forall p :: p in c ==> ChunkFits(c, g, p))
  }

  /** No two free chunks are neighbours: before a free chunk there is one in use. */
  ghost predicate Coalesced(c: Layout) { forall p :: p in c && !c[p].cin ==> c[p].pin }

  /** `top` is free and borders the end of its segment; no other free chunk borders an end, and only `top` may be
      smaller than the minimum chunk. */
  ghost predicate TopOk(c: Layout, g: Segments, top: int) {
    && top in c && !c[top].cin && c[top].seg in g && top + c[top].size == g[c[top].seg]
    && forall p :: p in c && p != top ==>
         c[p].size >= MIN_CHUNK_SIZE && (!c[p].cin ==> c[p].seg in g && p + c[p].size != g[c[p].seg])
  }

  /** What memory holds for one chunk: its head, and behind a free chunk its size once more. */
  ghost predicate Tagged(m: Mem, c: Layout, top: int, p: int)
    requires p in c
  {
    && HasHead(m, p, c[p].size, c[p].cin, c[p].pin)
    && (!c[p].cin && p != top ==> NumAt(m, p + c[p].size, c[p].size))
  }

  ghost predicate Tags(m: Mem, c: Layout, top: int) { forall p :: p in c ==> Tagged(m, c, top, p) }

  // ----- neighbours -----

  lemma NextChunk(c: Layout, g: Segments, p: int)
    requires Tiled(c, g) && p in c
    ensures ChunkFits(c, g, p) && c[p].size < 0x100_0000_0000 && p > 0
    ensures p + c[p].size != g[c[p].seg] ==> NextFits(c, p)
    ensures p + c[p].size == g[c[p].seg] ==> p + c[p].size !in c
    ensures c[p].seg in c && c[c[p].seg].seg == c[p].seg && c[c[p].seg].pin
  {
    hide Tiled, NextFits;
    Fits(c, g, p);
    Segment(c, g, c[p].seg);
  }

  lemma Fits(c: Layout, g: Segments, p: int)
    requires Tiled(c, g) && p in c
    ensures ChunkFits(c, g, p) && c[p].seg in g
  {
    hide NextFits, Disjoint, SegmentOk;
  }

  lemma Segment(c: Layout, g: Segments, f: int)
    requires Tiled(c, g) && f in g
    ensures SegmentOk(c, g, f)
  {
    hide ChunkFits, Disjoint;
  }

  /** A chunk that is not the first of its segment borders the one before it. */
  lemma {:induction false} PrevFrom(c: Layout, g: Segments, p: int, q: int) returns (r: int)
    requires Tiled(c, g) && p in c && q in c && p < q && c[p].seg == c[q].seg
    ensures r in c && r + c[r].size == q && NextFits(c, r) && c[r].cin == c[q].pin && c[r].seg == c[q].seg
    decreases q - p
  {
    hide Tiled, Disjoint;
    NextChunk(c, g, p);
    NextChunk(c, g, q);
    Before(c, g, p, q);
    if p + c[p].size == q {
      r := p;
    } else {
      r := PrevFrom(c, g, p + c[p].size, q);
    }
  }

  lemma Before(c: Layout, g: Segments, p: int, q: int)
    requires Tiled(c, g) && p in c && q in c && p < q
    ensures p + c[p].size <= q
  {}

  lemma PrevOf(c: Layout, g: Segments, q: int) returns (r: int)
    requires Tiled(c, g) && q in c && q != c[q].seg
    ensures r in c && r + c[r].size == q && NextFits(c, r) && c[r].cin == c[q].pin && c[r].seg == c[q].seg
  {
    hide Tiled;
    NextChunk(c, g, q);
    r := PrevFrom(c, g, c[q].seg, q);
  }

  /** Before a chunk whose `pinuse` bit is clear there is a free one, and its foot says how large it is. */
  lemma PrevFree(m: Mem, c: Layout, g: Segments, top: int, q: int) returns (r: int)
    requires Tiled(c, g) && Tags(m, c, top) && TopOk(c, g, top) && q in c && !c[q].pin
    ensures r in c && !c[r].cin && r != top && r + c[r].size == q && c[r].seg == c[q].seg && NumAt(m, q, c[r].size)
  {
    hide Tagged, TopOk, Tiled, NextFits;
    NextChunk(c, g, q);
    r := PrevOf(c, g, q);
    NextFacts(c, r);
    assert Tagged(m, c, top, r);
    NotTop(c, g, top, r);
    FootOf(m, c, top, r);
  }

  lemma NotTop(c: Layout, g: Segments, top: int, r: int)
    requires Tiled(c, g) && TopOk(c, g, top) && r in c && NextFits(c, r)
    ensures r != top
  {
    hide Tiled;
    Segment(c, g, c[top].seg);
  }

  lemma NextFacts(c: Layout, p: int)
    requires p in c && NextFits(c, p)
    ensures var n := p + c[p].size; n in c && c[n].pin == c[p].cin && c[n].seg == c[p].seg
  {}

  lemma FootOf(m: Mem, c: Layout, top: int, r: int)
    requires r in c && Tagged(m, c, top, r)
    ensures HasHead(m, r, c[r].size, c[r].cin, c[r].pin)
    ensures !c[r].cin && r != top ==> NumAt(m, r + c[r].size, c[r].size)
  {}

  // ----- replacing the chunks of a range -----

  /** One chunk instead of those in `[lo, hi)`. */
  function One(c: Layout, lo: int, hi: int, u: bool): Layout
    requires lo in c && lo < hi
  {
    var others := map p | p in c && !(lo <= p < hi) :: if p == hi then c[p].(pin := u) else c[p];
    others[lo := Chunk(hi - lo, u, c[lo].pin, c[lo].seg)]
  }

  /** Two chunks instead of those in `[lo, hi)`, the first one in use. */
  function Two(c: Layout, lo: int, mid: int, hi: int, v: bool): Layout
    requires lo in c && lo < mid < hi
  {
    One(c, lo, hi, v)[lo := Chunk(mid - lo, true, c[lo].pin, c[lo].seg)][mid := Chunk(hi - mid, v, true, c[lo].seg)]
  }

  /** `[lo, hi)` is the place of one or more chunks of one segment. */
  ghost predicate Stretch(c: Layout, g: Segments, lo: int, hi: int) {
    && lo in c && lo + 16 <= hi && (hi - lo) % 16 == 0 && c[lo].seg in g
    && (hi == g[c[lo].seg] || (hi in c && c[hi].seg == c[lo].seg))
  }

  lemma OneTiled(c: Layout, g: Segments, lo: int, hi: int, u: bool)
    requires Tiled(c, g) && Stretch(c, g, lo, hi)
    ensures Tiled(One(c, lo, hi, u), g)
  {
    hide NextFits, ChunkFits, SegmentOk;
    var d := One(c, lo, hi, u);
    OneDisjoint(c, lo, hi, u);
    forall p | p in d ensures ChunkFits(d, g, p) { OneFits(c, g, lo, hi, u, p); }
    forall f | f in g ensures SegmentOk(d, g, f) { OneSegment(c, g, lo, hi, u, f); }
  }

  lemma OneDisjoint(c: Layout, lo: int, hi: int, u: bool)
    requires Disjoint(c) && lo in c && lo < hi
    ensures Disjoint(One(c, lo, hi, u))
  {}

  lemma OneSegment(c: Layout, g: Segments, lo: int, hi: int, u: bool, f: int)
    requires Tiled(c, g) && Stretch(c, g, lo, hi) && f in g
    ensures SegmentOk(One(c, lo, hi, u), g, f)
  {
    hide Tiled, NextFits;
    Segment(c, g, f);
    NextChunk(c, g, lo);
    Segment(c, g, c[lo].seg);
    SegmentRange(c, g, lo, hi);
    if lo < f < hi {
      InStretch(c, g, lo, hi, f);
    }
    if f != lo { OneElsewhere(c, lo, hi, u, f); }
    OneDomain(c, lo, hi, u, g[f]);
  }

  lemma OneElsewhere(c: Layout, lo: int, hi: int, u: bool, p: int)
    requires lo in c && lo < hi && p in c && !(lo <= p < hi)
    ensures p in One(c, lo, hi, u) && One(c, lo, hi, u)[p] == if p == hi then c[p].(pin := u) else c[p]
  {}

  lemma OneDomain(c: Layout, lo: int, hi: int, u: bool, p: int)
    requires lo in c && lo < hi
    ensures p in One(c, lo, hi, u) <==> p in c && !(lo < p < hi)
  {}

  lemma SegmentRange(c: Layout, g: Segments, lo: int, hi: int)
    requires Tiled(c, g) && Stretch(c, g, lo, hi)
    ensures hi <= g[c[lo].seg]
  {
    hide Tiled, NextFits;
    if hi in c { NextChunk(c, g, hi); }
  }

  /** All chunks that start in a stretch belong to its segment. */
  lemma {:induction false} InStretch(c: Layout, g: Segments, lo: int, hi: int, q: int)
    requires Tiled(c, g) && lo in c && c[lo].seg in g && hi <= g[c[lo].seg] && q in c && lo <= q < hi
    ensures c[q].seg == c[lo].seg
    decreases q - lo
  {
    hide Tiled;
    NextChunk(c, g, lo);
    if q > lo {
      Before(c, g, lo, q);
      InStretch(c, g, lo + c[lo].size, hi, q);
    }
  }

  lemma OneFits(c: Layout, g: Segments, lo: int, hi: int, u: bool, p: int)
    requires Tiled(c, g) && Stretch(c, g, lo, hi) && p in One(c, lo, hi, u)
    ensures ChunkFits(One(c, lo, hi, u), g, p)
  {
    hide Tiled;
    NextChunk(c, g, lo);
    SegmentRange(c, g, lo, hi);
    if p != lo {
      NextChunk(c, g, p);
      if p < lo { Before(c, g, p, lo); }
    }
  }

  /** A chunk cut in two. */
  lemma TwoTiled(c: Layout, g: Segments, lo: int, mid: int, hi: int, v: bool)
    requires Tiled(c, g) && Stretch(c, g, lo, hi) && lo + 16 <= mid && mid + 16 <= hi && (mid - lo) % 16 == 0
    ensures Tiled(Two(c, lo, mid, hi, v), g)
  {
    OneTiled(c, g, lo, hi, v);
    Halve(One(c, lo, hi, v), g, lo, mid);
  }

  lemma Halve(c: Layout, g: Segments, lo: int, mid: int)
    requires Tiled(c, g) && lo in c && lo + 16 <= mid && mid + 16 <= lo + c[lo].size && (mid - lo) % 16 == 0
    ensures Tiled(
        c[lo := Chunk(mid - lo, true, c[lo].pin, c[lo].seg)]
        [mid := Chunk(lo + c[lo].size - mid, c[lo].cin, true, c[lo].seg)],
        g)
  {
    hide NextFits, ChunkFits;
    var d := c[lo := Chunk(mid - lo, true, c[lo].pin, c[lo].seg)]
      [mid := Chunk(lo + c[lo].size - mid, c[lo].cin, true, c[lo].seg)];
    assert mid !in c;
    forall p | p in d ensures ChunkFits(d, g, p) { HalveFits(c, g, lo, mid, p); }
    forall f | f in g ensures SegmentOk(d, g, f) {
      NextChunk(c, g, lo);
      Segment(c, g, f);
      HalveEnd(c, g, lo, mid, f);
    }
  }

  /** The cut is not where a segment ends. */
  lemma HalveEnd(c: Layout, g: Segments, lo: int, mid: int, f: int)
    requires Tiled(c, g) && lo in c && lo < mid < lo + c[lo].size && f in g
    ensures mid != g[f]
  {
    hide Tiled, NextFits;
    if mid == g[f] {
      Segment(c, g, f);
      var r := LastOf(c, g, f, f);
      if r < lo { Before(c, g, r, lo); } else if lo < r { Before(c, g, lo, r); }
    }
  }

  /** The last chunk of a segment. */
  lemma {:induction false} LastOf(c: Layout, g: Segments, f: int, p: int) returns (r: int)
    requires Tiled(c, g) && f in g && p in c && c[p].seg == f
    ensures r in c && c[r].seg == f && r + c[r].size == g[f]
    decreases g[f] - p
  {
    hide Tiled;
    NextChunk(c, g, p);
    if p + c[p].size == g[f] {
      r := p;
    } else {
      r := LastOf(c, g, f, p + c[p].size);
    }
  }

  lemma HalveFits(c: Layout, g: Segments, lo: int, mid: int, p: int)
    requires Tiled(c, g) && lo in c && lo + 16 <= mid && mid + 16 <= lo + c[lo].size && (mid - lo) % 16 == 0
    requires mid !in c
    requires p in c || p == mid
    ensures var d := c[lo := Chunk(mid - lo, true, c[lo].pin, c[lo].seg)]
        [mid := Chunk(lo + c[lo].size - mid, c[lo].cin, true, c[lo].seg)];
      
      ChunkFits(d, g, p)
  {
    hide Tiled;
    NextChunk(c, g, lo);
    if p in c {
      NextChunk(c, g, p);
    }
  }
}
