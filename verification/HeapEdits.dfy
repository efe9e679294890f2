/** Rewriting the boundary tags of a stretch of neighbouring chunks: the heap invariant, the bins and all other
    payloads are kept. */
module HeapEdits {
  import opened Words
  import opened Rings
  import opened Tries
  import opened TrieMemory
  import opened TreeIndex
  import opened BinMap
  import opened Bins
  import opened Heap
  import opened HeapMemory
  import opened Records

  /** Only words behind the first one of the stretch, up to the next chunk's head, have changed. */
  ghost predicate Rewritten(m: Mem, m': Mem, lo: int, hi: int) {
    (forall a :: a in m ==> a in m') && forall a :: a in m && (a <= lo || a > hi + HEAD) ==> m'[a] == m[a]
  }

  /** The next chunk's `pinuse` bit is `u`; where the segment ends, nothing has changed. */
  ghost predicate NextTagged(m: Mem, m': Mem, c: Layout, hi: int, u: bool) {
    if hi in c then HasHead(m', hi, c[hi].size, c[hi].cin, u) else SameWord(m, m', hi + HEAD)
  }

  /** The tags of a stretch that has become one chunk. */
  ghost predicate OneTagged(m: Mem, m': Mem, c: Layout, lo: int, hi: int, u: bool, top: int)
    requires lo in c && lo < hi
  {
    && HasHead(m', lo, hi - lo, u, c[lo].pin)
    && (!u && lo != top ==> NumAt(m', hi, hi - lo))
    && NextTagged(m, m', c, hi, u)
  }

  /** The tags of a stretch that has become two chunks, the first one in use. */
  ghost predicate TwoTagged(m: Mem, m': Mem, c: Layout, lo: int, mid: int, hi: int, v: bool, top: int)
    requires lo in c && lo < mid < hi
  {
    && HasHead(m', lo, mid - lo, true, c[lo].pin)
    && HasHead(m', mid, hi - mid, v, true)
    && (!v && mid != top ==> NumAt(m', hi, hi - mid))
    && NextTagged(m, m', c, hi, v)
  }

  /** Which stretches may be replaced: none of the allocator's own chunks; up to the end of the segment only when the
      last new chunk, `last`, is the new `top`; and a free last chunk must not get a free neighbour. */
  ghost predicate Replaceable(s: Space, lo: int, hi: int, last: int, u: bool, top: int, dv: int) {
    && Stretch(s.chunks, s.segs, lo, hi)
    && (forall p :: p in s.own ==> !(lo <= p < hi))
    && (if hi in s.chunks
        then top == s.top && !(lo <= s.top < hi) && hi - last >= MIN_CHUNK_SIZE && (u || s.chunks[hi].cin)
        else !u && top == last && lo <= s.top < hi)
    && (dv != 0 ==> (dv == last && !u && last != top) || (dv == s.dv && !(lo <= dv < hi)))
  }

  function OneSpace(s: Space, lo: int, hi: int, u: bool, top: int, dv: int): Space
    requires lo in s.chunks && lo < hi
  {
    Space(One(s.chunks, lo, hi, u), s.segs, top, dv, s.own, s.regs, s.recs)
  }

  function TwoSpace(s: Space, lo: int, mid: int, hi: int, v: bool, top: int, dv: int): Space
    requires lo in s.chunks && lo < mid < hi
  {
    Space(Two(s.chunks, lo, mid, hi, v), s.segs, top, dv, s.own, s.regs, s.recs)
  }

  // ----- the layout -----

  lemma StretchRange(s: Space, ms: int, lo: int, hi: int)
    requires Shape(s, ms) && Stretch(s.chunks, s.segs, lo, hi)
    ensures hi <= s.segs[s.chunks[lo].seg]
    ensures hi !in s.chunks ==> hi == s.segs[s.chunks[lo].seg]
    ensures lo <= s.top < hi ==> s.chunks[s.top].seg == s.chunks[lo].seg
    ensures hi !in s.chunks && lo <= s.top < hi ==> s.top + s.chunks[s.top].size == hi
    ensures forall p :: p in s.chunks && p < lo ==> p + s.chunks[p].size <= lo
    ensures forall p :: p in s.chunks && p >= hi ==> p % 16 == 0 && hi % 16 == 0
  {
    hide ChunkFits, SegmentOk, Coalesced, NextFits, DvOk, OwnOk;
    SegmentRange(s.chunks, s.segs, lo, hi);
    if lo <= s.top < hi { InStretch(s.chunks, s.segs, lo, hi, s.top); }
    Fits(s.chunks, s.segs, lo);
    LowAligned(s.chunks, s.segs, lo);
    forall p | p in s.chunks && p >= hi ensures p % 16 == 0 { LowAligned(s.chunks, s.segs, p); }
  }

  lemma LowAligned(c: Layout, g: Segments, p: int)
    requires Tiled(c, g) && p in c
    ensures p % 16 == 0
  {
    hide Tiled, NextFits;
    NextChunk(c, g, p);
  }

  lemma OneShape(s: Space, ms: int, lo: int, hi: int, u: bool, top: int, dv: int)
    requires Shape(s, ms) && Replaceable(s, lo, hi, lo, u, top, dv) && (u || s.chunks[lo].pin)
    ensures Shape(OneSpace(s, lo, hi, u, top, dv), ms)
  {
    hide Tiled, NextFits, TopOk, OwnOk;
    OneTiled(s.chunks, s.segs, lo, hi, u);
    StretchRange(s, ms, lo, hi);
    OneTop(s, ms, lo, hi, u, top, dv);
    OneOwn(s, ms, lo, hi, u, top, dv);
  }

  lemma OneOwn(s: Space, ms: int, lo: int, hi: int, u: bool, top: int, dv: int)
    requires Shape(s, ms) && Replaceable(s, lo, hi, lo, u, top, dv)
    ensures OwnOk(One(s.chunks, lo, hi, u), s.segs, top, s.own, ms)
  {
    hide Tiled, NextFits, Coalesced, DvOk, TopOk;
    StretchRange(s, ms, lo, hi);
    Segment(s.chunks, s.segs, s.chunks[lo].seg);
    var c, d := s.chunks, One(s.chunks, lo, hi, u);
    forall p | p in d && p != top && d[p].seg in s.segs && p + d[p].size == s.segs[d[p].seg] ensures p in s.own {
      assert p != lo;
      assert p in c && p != s.top && d[p].size == c[p].size && d[p].seg == c[p].seg;
    }
  }

  lemma TwoOwn(s: Space, ms: int, lo: int, mid: int, hi: int, v: bool, top: int, dv: int)
    requires Shape(s, ms) && Replaceable(s, lo, hi, mid, v, top, dv) && lo < mid < hi
    ensures OwnOk(Two(s.chunks, lo, mid, hi, v), s.segs, top, s.own, ms)
  {
    hide Tiled, NextFits, Coalesced, DvOk, TopOk;
    StretchRange(s, ms, lo, hi);
    Segment(s.chunks, s.segs, s.chunks[lo].seg);
    var c, d := s.chunks, Two(s.chunks, lo, mid, hi, v);
    forall p | p in d && p != top && d[p].seg in s.segs && p + d[p].size == s.segs[d[p].seg] ensures p in s.own {
      assert p != lo && p != mid;
      assert p in c && p != s.top && d[p].size == c[p].size && d[p].seg == c[p].seg;
    }
  }

  lemma OneTop(s: Space, ms: int, lo: int, hi: int, u: bool, top: int, dv: int)
    requires Shape(s, ms) && Replaceable(s, lo, hi, lo, u, top, dv)
    ensures TopOk(One(s.chunks, lo, hi, u), s.segs, top)
  {
    hide Tiled, NextFits, Coalesced, DvOk, OwnOk;
    StretchRange(s, ms, lo, hi);
    Fits(s.chunks, s.segs, lo);
    Segment(s.chunks, s.segs, s.chunks[lo].seg);
    var c, d := s.chunks, One(s.chunks, lo, hi, u);
    forall p | p in d && p != top
      ensures d[p].size >= MIN_CHUNK_SIZE && (!d[p].cin ==> d[p].seg in s.segs && p + d[p].size != s.segs[d[p].seg])
    {
      assert p != lo ==> p in c && p != s.top && d[p].size == c[p].size && d[p].cin == c[p].cin && d[p].seg == c[p].seg;
    }
  }

  lemma TwoShape(s: Space, ms: int, lo: int, mid: int, hi: int, v: bool, top: int, dv: int)
    requires Shape(s, ms) && Replaceable(s, lo, hi, mid, v, top, dv)
    requires lo + MIN_CHUNK_SIZE <= mid && mid + 16 <= hi && (mid - lo) % 16 == 0
    ensures Shape(TwoSpace(s, lo, mid, hi, v, top, dv), ms)
  {
    hide Tiled, NextFits, TopOk, OwnOk;
    TwoTiled(s.chunks, s.segs, lo, mid, hi, v);
    StretchRange(s, ms, lo, hi);
    TwoTop(s, ms, lo, mid, hi, v, top, dv);
    TwoOwn(s, ms, lo, mid, hi, v, top, dv);
  }

  lemma TwoTop(s: Space, ms: int, lo: int, mid: int, hi: int, v: bool, top: int, dv: int)
    requires Shape(s, ms) && Replaceable(s, lo, hi, mid, v, top, dv)
    requires lo + MIN_CHUNK_SIZE <= mid && mid + 16 <= hi
    ensures TopOk(Two(s.chunks, lo, mid, hi, v), s.segs, top)
  {
    hide Tiled, NextFits, Coalesced, DvOk, OwnOk;
    StretchRange(s, ms, lo, hi);
    Fits(s.chunks, s.segs, lo);
    Segment(s.chunks, s.segs, s.chunks[lo].seg);
    var c, d := s.chunks, Two(s.chunks, lo, mid, hi, v);
    forall p | p in d && p != top
      ensures d[p].size >= MIN_CHUNK_SIZE && (!d[p].cin ==> d[p].seg in s.segs && p + d[p].size != s.segs[d[p].seg])
    {
      assert p != lo && p != mid ==>
        p in c && p != s.top && d[p].size == c[p].size && d[p].cin == c[p].cin && d[p].seg == c[p].seg;
    }
  }

  // ----- the tags -----

  /** Chunks outside the stretch keep their tags. */
  lemma OtherTagged(m: Mem, m': Mem, s: Space, ms: int, lo: int, hi: int, p: int)
    requires HeapOk(m, s, ms) && Stretch(s.chunks, s.segs, lo, hi) && Rewritten(m, m', lo, hi) && p in s.chunks
    requires (p < lo || p > hi)
    ensures Tagged(m', s.chunks, s.top, p)
  {
    hide HeapOk, Shape, NextFits, Stretch;
    HeapShape(m, s, ms);
    FreeChunk(m, s, ms, p);
    StretchRange(s, ms, lo, hi);
  }

  lemma NextKept(m: Mem, m': Mem, s: Space, ms: int, lo: int, hi: int, u: bool)
    requires HeapOk(m, s, ms) && Stretch(s.chunks, s.segs, lo, hi) && Rewritten(m, m', lo, hi)
    requires NextTagged(m, m', s.chunks, hi, u) && hi in s.chunks
    ensures HasHead(m', hi, s.chunks[hi].size, s.chunks[hi].cin, u)
    ensures !s.chunks[hi].cin && hi != s.top ==> NumAt(m', hi + s.chunks[hi].size, s.chunks[hi].size)
  {
    hide HeapOk, Shape, NextFits, Stretch;
    FreeChunk(m, s, ms, hi);
  }

  lemma OneTag(m: Mem, m': Mem, s: Space, ms: int, lo: int, hi: int, u: bool, top: int, dv: int, p: int)
    requires HeapOk(m, s, ms) && Replaceable(s, lo, hi, lo, u, top, dv) && Rewritten(m, m', lo, hi)
    requires OneTagged(m, m', s.chunks, lo, hi, u, top)
    requires p in One(s.chunks, lo, hi, u)
    ensures Tagged(m', One(s.chunks, lo, hi, u), top, p)
  {
    hide HeapOk, Shape, NextFits, Rewritten, NextTagged;
    var c, d := s.chunks, One(s.chunks, lo, hi, u);
    if p != lo {
      assert d[p].size == c[p].size && d[p].cin == c[p].cin && (p == top <==> p == s.top);
      if p == hi { NextKept(m, m', s, ms, lo, hi, u); } else { OtherTagged(m, m', s, ms, lo, hi, p); }
    }
  }

  lemma OneTags(m: Mem, m': Mem, s: Space, ms: int, lo: int, hi: int, u: bool, top: int, dv: int)
    requires HeapOk(m, s, ms) && Replaceable(s, lo, hi, lo, u, top, dv) && Rewritten(m, m', lo, hi)
    requires OneTagged(m, m', s.chunks, lo, hi, u, top)
    ensures Tags(m', One(s.chunks, lo, hi, u), top)
  {
    hide HeapOk, Rewritten, OneTagged, One, Tagged;
    forall p | p in One(s.chunks, lo, hi, u) ensures Tagged(m', One(s.chunks, lo, hi, u), top, p) {
      OneTag(m, m', s, ms, lo, hi, u, top, dv, p);
    }
  }

  lemma TwoTag(m: Mem, m': Mem, s: Space, ms: int, lo: int, mid: int, hi: int, v: bool, top: int, dv: int, p: int)
    requires lo < mid < hi
    requires HeapOk(m, s, ms) && Replaceable(s, lo, hi, mid, v, top, dv) && Rewritten(m, m', lo, hi)
    requires TwoTagged(m, m', s.chunks, lo, mid, hi, v, top)
    requires p in Two(s.chunks, lo, mid, hi, v)
    ensures Tagged(m', Two(s.chunks, lo, mid, hi, v), top, p)
  {
    hide HeapOk, Shape, NextFits, Rewritten, NextTagged;
    var c, d := s.chunks, Two(s.chunks, lo, mid, hi, v);
    if p != lo && p != mid {
      assert d[p].size == c[p].size && d[p].cin == c[p].cin && (p == top <==> p == s.top);
      if p == hi { NextKept(m, m', s, ms, lo, hi, v); } else { OtherTagged(m, m', s, ms, lo, hi, p); }
    }
  }

  lemma TwoTags(m: Mem, m': Mem, s: Space, ms: int, lo: int, mid: int, hi: int, v: bool, top: int, dv: int)
    requires lo < mid < hi
    requires HeapOk(m, s, ms) && Replaceable(s, lo, hi, mid, v, top, dv) && Rewritten(m, m', lo, hi)
    requires TwoTagged(m, m', s.chunks, lo, mid, hi, v, top)
    ensures Tags(m', Two(s.chunks, lo, mid, hi, v), top)
  {
    hide HeapOk, Rewritten, TwoTagged, Two, Tagged;
    forall p | p in Two(s.chunks, lo, mid, hi, v) ensures Tagged(m', Two(s.chunks, lo, mid, hi, v), top, p) {
      TwoTag(m, m', s, ms, lo, mid, hi, v, top, dv, p);
    }
  }

  lemma BackedKept(m: Mem, m': Mem, s: Space, ms: int, lo: int, hi: int, last: int, u: bool, d: Layout, top: int,
      dv: int)
    requires HeapOk(m, s, ms) && Replaceable(s, lo, hi, last, u, top, dv) && Rewritten(m, m', lo, hi)
    requires NextTagged(m, m', s.chunks, hi, u)
    requires lo <= last < hi && top in d
    requires if hi in s.chunks then d[top].size == s.chunks[top].size else last + d[last].size == hi
    ensures Backed(m', d, s.segs, top)
  {
    hide HeapOk, Shape, NextFits, Tiled, Tags, Coalesced, DvOk, OwnOk, TopOk, Rewritten, NextTagged, Mapped;
    HeapShape(m, s, ms);
    StretchRange(s, ms, lo, hi);
    EndOfTop(s, ms);
    forall f | f in s.segs ensures Mapped(m', f, s.segs[f] + 16) { StillMapped(m, m', lo, hi, f, s.segs[f] + 16); }
    FreeChunk(m, s, ms, lo);
    FreeChunk(m, s, ms, s.top);
    if hi in s.chunks {
      TopAside(s, ms, lo, hi, s.chunks[lo].seg);
      var e := s.top + s.chunks[s.top].size;
      StillMapped(m, m', lo, hi, top, e + TOP_FOOT_SIZE);
      HeadElsewhere(m, m', lo, hi, e);
    } else {
      MappedPart(m, s.chunks[lo].seg, s.segs[s.chunks[lo].seg] + 16, lo, hi);
      NextTaggedAtEnd(m, m', s.chunks, hi, u);
      BackedAtEnd(m, m', s, lo, hi, last);
    }
  }

  lemma TopAside(s: Space, ms: int, lo: int, hi: int, seg: int)
    requires Shape(s, ms) && lo in s.chunks && hi in s.chunks && lo < hi && s.top in s.chunks && !(lo <= s.top < hi)
    ensures var e := s.top + s.chunks[s.top].size; e + HEAD <= lo || e > hi
  {
    hide Shape, NextFits;
    EndOfTop(s, ms);
    ShapeAligned(s, ms, s.top);
    ShapeAligned(s, ms, lo);
    ChunksApart(s, ms, s.top, lo);
  }

  lemma ShapeAligned(s: Space, ms: int, p: int)
    requires Shape(s, ms) && p in s.chunks
    ensures p % 16 == 0 && s.chunks[p].size % 16 == 0 && s.chunks[p].size > 0
  {
    hide Tiled, TopOk, Coalesced, NextFits;
    NextChunk(s.chunks, s.segs, p);
  }

  lemma StillMapped(m: Mem, m': Mem, lo: int, hi: int, a: int, b: int)
    requires Mapped(m, a, b) && Rewritten(m, m', lo, hi)
    ensures Mapped(m', a, b)
  {}

  lemma MappedPart(m: Mem, a: int, b: int, a': int, b': int)
    requires Mapped(m, a, b) && a <= a' && b' <= b
    ensures Mapped(m, a', b')
  {}

  lemma HeadElsewhere(m: Mem, m': Mem, lo: int, hi: int, p: int)
    requires Rewritten(m, m', lo, hi) && (p + HEAD <= lo || p > hi)
    ensures SameWord(m, m', p + HEAD)
  {}

  lemma NextTaggedAtEnd(m: Mem, m': Mem, c: Layout, hi: int, u: bool)
    requires NextTagged(m, m', c, hi, u) && hi !in c
    ensures SameWord(m, m', hi + HEAD)
  {}

  lemma BackedAtEnd(m: Mem, m': Mem, s: Space, lo: int, hi: int, last: int)
    requires Backed(m, s.chunks, s.segs, s.top) && Rewritten(m, m', lo, hi) && SameWord(m, m', hi + HEAD)
    requires lo <= last < hi && lo <= s.top < hi && s.top + s.chunks[s.top].size == hi && Mapped(m, lo, hi)
    ensures Mapped(m', last, hi + TOP_FOOT_SIZE) && HasHead(m', hi, TOP_FOOT_SIZE, false, false)
  {}

  lemma EndOfTop(s: Space, ms: int)
    requires Shape(s, ms)
    ensures s.top in s.chunks && s.chunks[s.top].size > 0 && s.top + s.chunks[s.top].size !in s.chunks
    ensures s.chunks[s.top].seg in s.segs && s.top + s.chunks[s.top].size == s.segs[s.chunks[s.top].seg]
  {
    hide Tiled, NextFits, Coalesced, DvOk, OwnOk;
    NextChunk(s.chunks, s.segs, s.top);
  }

  // ----- all of it -----

  /** What the clients hold, but for the chunks of a stretch. */
  ghost function Others(l: Sizing, lo: int, hi: int): Sizing { map p | p in l && !(lo <= p < hi) :: l[p] }

  lemma OthersKept(m: Mem, m': Mem, s: Space, ms: int, lo: int, hi: int)
    requires HeapOk(m, s, ms) && Stretch(s.chunks, s.segs, lo, hi) && Rewritten(m, m', lo, hi)
    ensures PayloadKept(m, m', Others(Live(s), lo, hi))
  {
    hide HeapOk, Shape, NextFits, Stretch;
    HeapShape(m, s, ms);
    StretchRange(s, ms, lo, hi);
  }

  /** The records lie outside. */
  lemma RecordsRewritten(m: Mem, m': Mem, s: Space, ms: int, lo: int, hi: int)
    requires HeapOk(m, s, ms) && SegsOk(m, s, ms) && lo in s.chunks && lo < hi
    requires (forall p :: p in s.own ==> !(lo <= p < hi)) && Rewritten(m, m', lo, hi)
    ensures RecordsSame(m, m', s)
  {
    hide HeapOk, Shape, ListOk, RecordsPlaced;
    ShapeOf(m, s, ms);
    ListPlaced(m, s, ms, s.regs);
    PlacedRegions(s, ms);
    forall k: nat, a: int | k < |s.recs| && RecordWord(s, k, a) && a in m ensures a in m' && m'[a] == m[a] {
      RecordInUse(s, ms, k);
      RecordApart(s, ms, k, lo);
    }
  }

  lemma OneRecords(m: Mem, m': Mem, s: Space, ms: int, lo: int, hi: int, u: bool, top: int, dv: int)
    requires HeapOk(m, s, ms) && SegsOk(m, s, ms) && Replaceable(s, lo, hi, lo, u, top, dv) && Rewritten(m, m', lo, hi)
    ensures SegsOk(m', OneSpace(s, lo, hi, u, top, dv), ms)
  {
    hide HeapOk, Shape, ListOk, RecordsSame, Rewritten, NextFits;
    ShapeOf(m, s, ms);
    DvInside(s, ms);
    StretchRange(s, ms, lo, hi);
    RecordsRewritten(m, m', s, ms, lo, hi);
    ListKept(m, m', s, OneSpace(s, lo, hi, u, top, dv), ms, s.regs);
  }

  lemma TwoRecords(m: Mem, m': Mem, s: Space, ms: int, lo: int, mid: int, hi: int, v: bool, top: int, dv: int)
    requires HeapOk(m, s, ms) && SegsOk(m, s, ms) && lo < mid < hi && Replaceable(s, lo, hi, mid, v, top, dv)
    requires Rewritten(m, m', lo, hi)
    ensures SegsOk(m', TwoSpace(s, lo, mid, hi, v, top, dv), ms)
  {
    hide HeapOk, Shape, ListOk, RecordsSame, Rewritten, NextFits;
    ShapeOf(m, s, ms);
    DvInside(s, ms);
    StretchRange(s, ms, lo, hi);
    RecordsRewritten(m, m', s, ms, lo, hi);
    ListKept(m, m', s, TwoSpace(s, lo, mid, hi, v, top, dv), ms, s.regs);
  }

  /** A stretch becomes one chunk. */
  lemma OneOk(m: Mem, m': Mem, s: Space, ms: int, lo: int, hi: int, u: bool, top: int, dv: int)
    requires HeapOk(m, s, ms) && Replaceable(s, lo, hi, lo, u, top, dv) && (u || s.chunks[lo].pin)
    requires Rewritten(m, m', lo, hi) && OneTagged(m, m', s.chunks, lo, hi, u, top)
    ensures HeapOk(m', OneSpace(s, lo, hi, u, top, dv), ms)
    ensures PayloadKept(m, m', Others(Live(s), lo, hi))
  {
    hide HeapOk, Shape, Rewritten, NextFits, Tags, Backed, Others, Live, PayloadKept;
    HeapShape(m, s, ms);
    OneShape(s, ms, lo, hi, u, top, dv);
    OneTags(m, m', s, ms, lo, hi, u, top, dv);
    BackedKept(m, m', s, ms, lo, hi, lo, u, One(s.chunks, lo, hi, u), top, dv);
    OthersKept(m, m', s, ms, lo, hi);
    HeapFrom(m', OneSpace(s, lo, hi, u, top, dv), ms);
  }

  /** A stretch becomes two chunks, the first one in use. */
  lemma TwoOk(m: Mem, m': Mem, s: Space, ms: int, lo: int, mid: int, hi: int, v: bool, top: int, dv: int)
    requires HeapOk(m, s, ms) && Replaceable(s, lo, hi, mid, v, top, dv)
    requires lo + MIN_CHUNK_SIZE <= mid && mid + 16 <= hi && (mid - lo) % 16 == 0
    requires Rewritten(m, m', lo, hi) && TwoTagged(m, m', s.chunks, lo, mid, hi, v, top)
    ensures HeapOk(m', TwoSpace(s, lo, mid, hi, v, top, dv), ms)
    ensures PayloadKept(m, m', Others(Live(s), lo, hi))
  {
    hide HeapOk, Shape, Rewritten, NextFits, Tags, Backed, Others, Live, PayloadKept;
    HeapShape(m, s, ms);
    TwoShape(s, ms, lo, mid, hi, v, top, dv);
    TwoTags(m, m', s, ms, lo, mid, hi, v, top, dv);
    BackedKept(m, m', s, ms, lo, hi, mid, v, Two(s.chunks, lo, mid, hi, v), top, dv);
    OthersKept(m, m', s, ms, lo, hi);
    HeapFrom(m', TwoSpace(s, lo, mid, hi, v, top, dv), ms);
  }

  /** Bins none of whose chunks lie in the stretch hold what they held. */
  lemma BinsRewritten(m: Mem, m': Mem, s: Space, ms: int, lo: int, hi: int, f: Sizing, h: Held, sm: Word32, tm: Word32)
    requires HeapOk(m, s, ms) && Stretch(s.chunks, s.segs, lo, hi) && Rewritten(m, m', lo, hi)
    requires FreeOnes(s, f) && (forall p :: p in f ==> !(lo <= p < hi)) && !(lo <= ms - 16 < hi)
    requires hi in s.chunks ==> SizeAt(m', hi) == s.chunks[hi].size
    requires BinsHold(m, f, ms, h, sm, tm)
    ensures BinsHold(m', f, ms, h, sm, tm)
  {
    hide HeapOk, Shape, NextFits, Stretch, TreeOk, SmallOk, Complete, Rewritten, ChunkOk, SameNode, SameLinks, BinsHold;
    hide Tiled, TopOk, Tags, Backed, Mapped;
    HeapShape(m, s, ms);
    forall p | p in f
      ensures SameLinks(m, m', p) && ChunkOk(m', p, f[p], ms) && (!IsSmall(f[p]) ==> SameNode(m, m', p))
    {
      BinnedKept(m, m', s, ms, lo, hi, f, h, sm, tm, p);
    }
    forall a | InHeaders(ms, a) ensures SameWord(m, m', a) {
      StateKept(m, m', s, ms, lo, hi, a);
    }
    BinsChunks(m, f, ms, h, sm, tm);
    StateInMemory(m, s, ms);
    StillMapped(m, m', lo, hi, ms + HEADERS, ms + HEADERS_END);
    BinsSame(m, m', f, ms, h, sm, tm);
  }

  lemma BinsChunks(m: Mem, f: Sizing, ms: int, h: Held, sm: Word32, tm: Word32)
    requires BinsHold(m, f, ms, h, sm, tm)
    ensures Chunks(m, f, ms)
  {}

  lemma StateKept(m: Mem, m': Mem, s: Space, ms: int, lo: int, hi: int, a: int)
    requires HeapOk(m, s, ms) && Stretch(s.chunks, s.segs, lo, hi) && Rewritten(m, m', lo, hi) && !(lo <= ms - 16 < hi)
    requires InHeaders(ms, a)
    ensures SameWord(m, m', a)
  {
    hide HeapOk, Shape, NextFits, Stretch, Tiled, TopOk, Tags, Backed, Mapped;
    HeapShape(m, s, ms);
    StretchRange(s, ms, lo, hi);
    OwnState(s, ms);
    FreeChunk(m, s, ms, ms - 16);
  }

  lemma BinnedKept(m: Mem, m': Mem, s: Space, ms: int, lo: int, hi: int, f: Sizing, h: Held, sm: Word32, tm: Word32,
      p: int)
    requires HeapOk(m, s, ms) && Stretch(s.chunks, s.segs, lo, hi) && Rewritten(m, m', lo, hi)
    requires FreeOnes(s, f) && p in f && !(lo <= p < hi)
    requires hi in s.chunks ==> SizeAt(m', hi) == s.chunks[hi].size
    requires BinsHold(m, f, ms, h, sm, tm)
    ensures SameLinks(m, m', p) && ChunkOk(m', p, f[p], ms) && (!IsSmall(f[p]) ==> SameNode(m, m', p))
  {
    hide HeapOk, Shape, NextFits, Stretch, BinsHold, Tiled, TopOk, Tags, Backed, Chunks;
    HeapShape(m, s, ms);
    StretchRange(s, ms, lo, hi);
    FreeChunk(m, s, ms, p);
    BinsChunks(m, f, ms, h, sm, tm);
    ChunkFacts(m, f, ms, p);
  }

  lemma BinsSame(m: Mem, m': Mem, f: Sizing, ms: int, h: Held, sm: Word32, tm: Word32)
    requires BinsHold(m, f, ms, h, sm, tm) && Chunks(m', f, ms)
    requires forall p :: p in f ==> SameLinks(m, m', p) && (!IsSmall(f[p]) ==> SameNode(m, m', p))
    requires forall a :: InHeaders(ms, a) ==> SameWord(m, m', a)
    ensures BinsHold(m', f, ms, h, sm, tm)
  {
    hide TreeOk, SmallOk, Chunks, Complete;
    forall i, p | 0 <= i < NTREEBINS && i != -1 && p in Addrs(h.trees[i]) && p in f ensures SameNode(m, m', p) {
      TreeBinFacts(m, f, ms, h, sm, tm, i);
      InTree(m, f, ms, i, h.trees[i], tm[i], p);
    }
    forall i | 0 <= i < NTREEBINS && i != -1
      ensures SameWord(m, m', TreeBinAt(ms, i))
    {
      assert InHeaders(ms, TreeBinAt(ms, i));
    }
    TreesKept(m, m', f, f, ms, h.trees, tm, -1);
    forall i | 0 <= i < NSMALLBINS && i != -1 ensures SameLinks(m, m', SmallBinAt(ms, i)) {
      assert InHeaders(ms, SmallBinAt(ms, i) + FD) && InHeaders(ms, SmallBinAt(ms, i) + BK);
    }
    SmallsKept(m, m', f, f, ms, h.small, sm, -1);
  }

  lemma InTree(m: Mem, f: Sizing, ms: int, i: nat, t: Trie, marked: bool, p: int)
    requires i < NTREEBINS && TreeOk(m, f, ms, i, t, marked) && p in Addrs(t)
    ensures p in f && !IsSmall(f[p])
  {
    AddrHasSize(t, f, p);
  }

  // ----- what the clients and the bins hold afterwards -----

  lemma LiveAfterOne(s: Space, ms: int, lo: int, hi: int, u: bool, top: int, dv: int)
    requires Shape(s, ms) && Replaceable(s, lo, hi, lo, u, top, dv)
    ensures Live(OneSpace(s, lo, hi, u, top, dv)) ==
      if u then Others(Live(s), lo, hi)[lo := hi - lo] else Others(Live(s), lo, hi)
  {
    hide Tiled, TopOk, Coalesced, DvOk;
    var l, r := Live(OneSpace(s, lo, hi, u, top, dv)), Others(Live(s), lo, hi);
    forall p ensures p in l <==> p in r || (u && p == lo) {
      if p == hi && p in s.chunks { assert One(s.chunks, lo, hi, u)[p].cin == s.chunks[p].cin; }
    }
  }

  lemma LiveAfterTwo(s: Space, ms: int, lo: int, mid: int, hi: int, v: bool, top: int, dv: int)
    requires Shape(s, ms) && Replaceable(s, lo, hi, mid, v, top, dv) && lo < mid < hi
    ensures var l := Others(Live(s), lo, hi)[lo := mid - lo];
      Live(TwoSpace(s, lo, mid, hi, v, top, dv)) == if v then l[mid := hi - mid] else l
  {
    hide Shape;
    var l, r := Live(TwoSpace(s, lo, mid, hi, v, top, dv)), Others(Live(s), lo, hi);
    var d := Two(s.chunks, lo, mid, hi, v);
    assert lo in l && l[lo] == mid - lo && (mid in l <==> v) && (v ==> l[mid] == hi - mid);
    forall p | p != lo && p != mid ensures (p in l <==> p in r) && (p in r ==> l[p] == r[p]) {
      if p in d { assert d[p].cin == s.chunks[p].cin && d[p].size == s.chunks[p].size && !(lo <= p < hi); }
    }
  }

  /** The bins hold none of the chunks of the stretch, and all other free chunks but `top` and `dv`. */
  ghost predicate Emptied(s: Space, f: Sizing, out: set<int>, lo: int, hi: int, dv: int) {
    && BinnedOk(s, f, out)
    && (forall p :: p in out ==> lo <= p < hi)
    && (forall p :: p in f ==> !(lo <= p < hi))
    && (s.dv != 0 && dv != s.dv ==> lo <= s.dv < hi)
  }

  lemma Positive(s: Space, ms: int, p: int)
    requires Shape(s, ms) && p in s.chunks
    ensures p > 0
  {
    hide Tiled, TopOk, Coalesced, OwnOk, DvOk, NextFits;
    NextChunk(s.chunks, s.segs, p);
  }

  lemma BinnedAfterOne(s: Space, ms: int, f: Sizing, out: set<int>, lo: int, hi: int, u: bool, top: int, dv: int)
    requires Shape(s, ms) && Replaceable(s, lo, hi, lo, u, top, dv) && Emptied(s, f, out, lo, hi, dv)
    ensures BinnedOk(OneSpace(s, lo, hi, u, top, dv), f, {lo})
    ensures u || lo == top || lo == dv ==> BinnedOk(OneSpace(s, lo, hi, u, top, dv), f, {})
  {
    hide Tiled, TopOk, Coalesced, OwnOk;
    var d := One(s.chunks, lo, hi, u);
    forall p ensures p in f <==> p != lo && p in d && !d[p].cin && p != top && p != dv {
      if p in s.chunks { Positive(s, ms, p); }
    }
    forall p | p in f ensures f[p] == d[p].size {}
  }

  lemma BinnedAfterTwo(s: Space, ms: int, f: Sizing, out: set<int>, lo: int, mid: int, hi: int, v: bool, top: int,
      dv: int)
    requires Shape(s, ms) && Replaceable(s, lo, hi, mid, v, top, dv) && lo < mid < hi && Emptied(s, f, out, lo, hi, dv)
    ensures BinnedOk(TwoSpace(s, lo, mid, hi, v, top, dv), f, {mid})
    ensures v || mid == top || mid == dv ==> BinnedOk(TwoSpace(s, lo, mid, hi, v, top, dv), f, {})
  {
    hide Tiled, TopOk, Coalesced, OwnOk;
    var d := Two(s.chunks, lo, mid, hi, v);
    forall p ensures p in f <==> p != mid && p in d && !d[p].cin && p != top && p != dv {
      if p in s.chunks { Positive(s, ms, p); }
    }
    forall p | p in f ensures f[p] == d[p].size {}
  }

  // ----- an edit as a whole -----

  /** A stretch becomes one chunk: everything that is kept, and what changes. */
  lemma OneEdit(m: Mem, m': Mem, s: Space, ms: int, lo: int, hi: int, u: bool, top: int, dv: int, f: Sizing,
      out: set<int>, h: Held, sm: Word32, tm: Word32)
    requires HeapOk(m, s, ms) && Replaceable(s, lo, hi, lo, u, top, dv) && (u || s.chunks[lo].pin)
    requires Rewritten(m, m', lo, hi) && OneTagged(m, m', s.chunks, lo, hi, u, top)
    requires Emptied(s, f, out, lo, hi, dv) && BinsHold(m, f, ms, h, sm, tm)
    ensures var s' := OneSpace(s, lo, hi, u, top, dv);
      && HeapOk(m', s', ms) && BinsHold(m', f, ms, h, sm, tm) && (SegsOk(m, s, ms) ==> SegsOk(m', s', ms))
      && BinnedOk(s', f, {lo}) && (u || lo == top || lo == dv ==> BinnedOk(s', f, {}))
      && PayloadKept(m, m', Others(Live(s), lo, hi)) && FieldsAfter(s, s', lo, hi, lo, u, top, dv)
      && Live(s') == if u then Others(Live(s), lo, hi)[lo := hi - lo] else Others(Live(s), lo, hi)
  {
    hide HeapOk, Shape, Rewritten, Others, Live, PayloadKept, BinsHold, OneSpace, FreeOnes, Stretch, BinnedOk, Tags;
    hide Tiled, TopOk, Coalesced, DvOk, Backed, SegsOk;
    HeapShape(m, s, ms);
    OneOk(m, m', s, ms, lo, hi, u, top, dv);
    if SegsOk(m, s, ms) { OneRecords(m, m', s, ms, lo, hi, u, top, dv); }
    BinnedFree(s, f, out);
    BinsRewritten(m, m', s, ms, lo, hi, f, h, sm, tm);
    LiveAfterOne(s, ms, lo, hi, u, top, dv);
    BinnedAfterOne(s, ms, f, out, lo, hi, u, top, dv);
    assert s.top in s.chunks by { DvInside(s, ms); }
    StretchRange(s, ms, lo, hi);
    OneFields(s, lo, hi, u, top, dv);
  }

  /** `top` and `dv` are where they were unless they are the last chunk of the stretch, and the segments are as they
      were. */
  ghost predicate FieldsAfter(s: Space, s': Space, lo: int, hi: int, last: int, u: bool, top: int, dv: int) {
    && s'.segs == s.segs && s'.own == s.own && s'.regs == s.regs && s'.recs == s.recs && TopSeg(s') == TopSeg(s)
    && s'.top == top && s'.dv == dv && top in s'.chunks
    && last in s'.chunks && s'.chunks[last].size == hi - last && s'.chunks[last].cin == u
    && (if hi in s.chunks
        then top == s.top && top in s.chunks && !(lo <= top < hi) && s'.chunks[top].size == s.chunks[top].size
        else top == last)
    && (dv != 0 && dv != last ==>
        dv == s.dv && !(lo <= dv < hi) && dv in s.chunks && dv in s'.chunks && s'.chunks[dv].size == s.chunks[dv].size)
  }

  lemma OneFields(s: Space, lo: int, hi: int, u: bool, top: int, dv: int)
    requires Replaceable(s, lo, hi, lo, u, top, dv) && s.top in s.chunks && DvOk(s.chunks, s.top, s.dv)
    requires lo <= s.top < hi ==> s.chunks[s.top].seg == s.chunks[lo].seg
    ensures FieldsAfter(s, OneSpace(s, lo, hi, u, top, dv), lo, hi, lo, u, top, dv)
  {}

  lemma TwoFields(s: Space, lo: int, mid: int, hi: int, v: bool, top: int, dv: int)
    requires lo < mid < hi && Replaceable(s, lo, hi, mid, v, top, dv) && s.top in s.chunks
    requires DvOk(s.chunks, s.top, s.dv)
    requires lo <= s.top < hi ==> s.chunks[s.top].seg == s.chunks[lo].seg
    ensures FieldsAfter(s, TwoSpace(s, lo, mid, hi, v, top, dv), lo, hi, mid, v, top, dv)
  {}

  lemma BinnedFree(s: Space, f: Sizing, out: set<int>)
    requires BinnedOk(s, f, out)
    ensures FreeOnes(s, f)
  {}

  /** A stretch becomes two chunks, the first one in use. */
  lemma TwoEdit(m: Mem, m': Mem, s: Space, ms: int, lo: int, mid: int, hi: int, v: bool, top: int, dv: int, f: Sizing,
      out: set<int>, h: Held, sm: Word32, tm: Word32)
    requires HeapOk(m, s, ms) && Replaceable(s, lo, hi, mid, v, top, dv)
    requires lo + MIN_CHUNK_SIZE <= mid && mid + 16 <= hi && (mid - lo) % 16 == 0
    requires Rewritten(m, m', lo, hi) && TwoTagged(m, m', s.chunks, lo, mid, hi, v, top)
    requires Emptied(s, f, out, lo, hi, dv) && BinsHold(m, f, ms, h, sm, tm)
    ensures var s' := TwoSpace(s, lo, mid, hi, v, top, dv);
      && HeapOk(m', s', ms) && BinsHold(m', f, ms, h, sm, tm) && (SegsOk(m, s, ms) ==> SegsOk(m', s', ms))
      && BinnedOk(s', f, {mid}) && (v || mid == top || mid == dv ==> BinnedOk(s', f, {}))
      && PayloadKept(m, m', Others(Live(s), lo, hi)) && FieldsAfter(s, s', lo, hi, mid, v, top, dv)
      && Live(s') == var l := Others(Live(s), lo, hi)[lo := mid - lo]; if v then l[mid := hi - mid] else l
  {
    hide HeapOk, Shape, Rewritten, Others, Live, PayloadKept, BinsHold, TwoSpace, FreeOnes, Stretch, BinnedOk, Tags;
    hide Tiled, TopOk, Coalesced, DvOk, Backed, SegsOk;
    HeapShape(m, s, ms);
    TwoOk(m, m', s, ms, lo, mid, hi, v, top, dv);
    if SegsOk(m, s, ms) { TwoRecords(m, m', s, ms, lo, mid, hi, v, top, dv); }
    BinnedFree(s, f, out);
    BinsRewritten(m, m', s, ms, lo, hi, f, h, sm, tm);
    LiveAfterTwo(s, ms, lo, mid, hi, v, top, dv);
    BinnedAfterTwo(s, ms, f, out, lo, mid, hi, v, top, dv);
    assert s.top in s.chunks by { DvInside(s, ms); }
    StretchRange(s, ms, lo, hi);
    TwoFields(s, lo, mid, hi, v, top, dv);
  }

  // ----- what the operations need to know about one chunk -----

  ghost predicate FreePlace(m: Mem, s: Space, p: int)
    requires p in s.chunks
  {
    var n := p + s.chunks[p].size;
    && Stretch(s.chunks, s.segs, p, n) && s.chunks[p].pin && s.chunks[p].size >= MIN_CHUNK_SIZE && p > 0 && p % 16 == 0
    && Alone(s, p, n)
    && n in s.chunks && s.chunks[n].cin && !s.chunks[n].pin && HasHead(m, n, s.chunks[n].size, true, false)
    && Mapped(m, p, n + 16) && HasHead(m, p, s.chunks[p].size, false, true)
    && (forall q :: q in s.own ==> !(p <= q < n))
  }

  /** A free chunk other than `top` lies between two chunks in use. */
  lemma FreeFacts(m: Mem, s: Space, ms: int, p: int)
    requires HeapOk(m, s, ms) && p in s.chunks && !s.chunks[p].cin && p != s.top
    ensures FreePlace(m, s, p)
  {
    hide HeapOk, Shape, Tiled, NextFits, Tags, Backed, DvOk;
    HeapShape(m, s, ms);
    FreeChunk(m, s, ms, p);
    NextFacts(s.chunks, p);
    var n := p + s.chunks[p].size;
    FreeChunk(m, s, ms, n);
    AloneIn(s, ms, p);
    NextInUse(s, n);
  }

  lemma NextInUse(s: Space, n: int)
    requires Coalesced(s.chunks) && n in s.chunks && !s.chunks[n].pin
    ensures s.chunks[n].cin
  {}

  /** No other chunk starts in the range. */
  ghost predicate Alone(s: Space, lo: int, hi: int) { forall q :: q in s.chunks && lo <= q < hi ==> q == lo }

  lemma AloneIn(s: Space, ms: int, p: int)
    requires Shape(s, ms) && p in s.chunks
    ensures Alone(s, p, p + s.chunks[p].size)
  {
    hide ChunkFits, SegmentOk, TopOk, Coalesced, DvOk, OwnOk;
  }

  ghost predicate UsedPlace(m: Mem, s: Space, p: int) {
    && p in s.chunks && s.chunks[p].cin && p !in s.own && Live(s)[p] == s.chunks[p].size && p != s.top && p != s.dv
    && Alone(s, p, p + s.chunks[p].size) && s.chunks[p].size >= MIN_CHUNK_SIZE && s.chunks[p].size % 16 == 0
    && p % 16 == 0 && p > 0
    && Mapped(m, p, p + s.chunks[p].size + 16) && HasHead(m, p, s.chunks[p].size, true, s.chunks[p].pin)
  }

  /** A chunk that a client holds. */
  lemma UsedFacts(m: Mem, s: Space, ms: int, p: int)
    requires HeapOk(m, s, ms) && p in Live(s)
    ensures UsedPlace(m, s, p)
  {
    hide HeapOk, Shape, Tiled, NextFits, Tags, Backed, Coalesced, OwnOk, Mapped;
    HeapShape(m, s, ms);
    FreeChunk(m, s, ms, p);
    AloneIn(s, ms, p);
  }

  lemma FreeOnesWith(s: Space, f: Sizing, p: int, size: nat)
    requires BinnedOk(s, f, {p}) && p in s.chunks && !s.chunks[p].cin && p != s.top && size == s.chunks[p].size
    ensures FreeOnes(s, f[p := size]) && p !in f
    ensures p != s.dv ==> BinnedOk(s, f[p := size], {})
  {}

  /** A free chunk that has left the bins can be taken for use, whole or in part. */
  lemma TakenReady(m: Mem, s: Space, ms: int, f: Sizing, p: int, last: int)
    requires HeapOk(m, s, ms) && BinnedOk(s, f, {p}) && p in s.chunks && !s.chunks[p].cin && p != s.top && p != s.dv
    requires p <= last && last + MIN_CHUNK_SIZE <= p + s.chunks[p].size
    ensures var hi := p + s.chunks[p].size;
      && Emptied(s, f, {p}, p, hi, s.dv)
      && Replaceable(s, p, hi, last, last == p, s.top, s.dv)
      && Others(Live(s), p, hi) == Live(s) && p !in Live(s)
  {
    hide HeapOk, Shape, Tiled, NextFits, Tags, Backed, Coalesced, OwnOk, Mapped, TopOk, Stretch;
    HeapShape(m, s, ms);
    FreeFacts(m, s, ms, p);
    DvInside(s, ms);
  }

  lemma DvInside(s: Space, ms: int)
    requires Shape(s, ms)
    ensures s.top in s.chunks && !s.chunks[s.top].cin
    ensures (s.dv != 0 ==> s.dv in s.chunks && !s.chunks[s.dv].cin && s.dv != s.top)
  {}

  lemma RecordsWithDv(m: Mem, s: Space, ms: int, r: int)
    requires SegsOk(m, s, ms)
    ensures SegsOk(m, s.(dv := r), ms)
  {
    hide ListOk, RecordsPlaced;
    ListPlaced(m, s, ms, s.regs);
    PlacedRegions(s, ms);
    ListKept(m, m, s, s.(dv := r), ms, s.regs);
  }

  /** `dv` goes to the bins and another free chunk takes its place. */
  lemma DvReplaced(m: Mem, s: Space, ms: int, f: Sizing, r: int)
    requires HeapOk(m, s, ms) && r in s.chunks && !s.chunks[r].cin && r != s.top && r != s.dv
    requires if s.dv == 0 then BinnedOk(s, f, {r})
      else exists g :: BinnedOk(s, g, {r}) && f == g[s.dv := s.chunks[s.dv].size]
    ensures HeapOk(m, s.(dv := r), ms) && BinnedOk(s.(dv := r), f, {}) && Live(s.(dv := r)) == Live(s)
    ensures SegsOk(m, s, ms) ==> SegsOk(m, s.(dv := r), ms)
  {
    hide Tiled, TopOk, Coalesced, OwnOk, Tags, Backed, SegsOk;
    HeapShape(m, s, ms);
    forall p | p in s.chunks ensures p > 0 { Positive(s, ms, p); }
    if SegsOk(m, s, ms) { RecordsWithDv(m, s, ms, r); }
  }

  lemma DvFacts(m: Mem, s: Space, ms: int, f: Sizing, r: int)
    requires HeapOk(m, s, ms) && BinnedOk(s, f, {r}) && s.dv != 0
    ensures s.dv in s.chunks && s.dv !in f && FreeOnes(s, f[s.dv := s.chunks[s.dv].size])
  {
    hide Tiled, TopOk, Coalesced, OwnOk, Tags, Backed;
  }

  lemma NoDv(m: Mem, s: Space, ms: int)
    requires HeapOk(m, s, ms)
    ensures forall p :: p in s.chunks ==> s.chunks[p].size > 0
  {
    hide HeapOk, Shape, Tiled, NextFits;
    HeapShape(m, s, ms);
    forall p | p in s.chunks ensures s.chunks[p].size > 0 { NextChunk(s.chunks, s.segs, p); }
  }

  lemma NothingWritten(m: Mem, s: Space)
    ensures PayloadKept(m, m, Live(s))
  {}

  lemma KeptTrans(m0: Mem, m1: Mem, m2: Mem, l: Sizing)
    requires PayloadKept(m0, m1, l) && PayloadKept(m1, m2, l)
    ensures PayloadKept(m0, m2, l)
  {}

  lemma KeptPart(m: Mem, m': Mem, l: Sizing, l': Sizing)
    requires PayloadKept(m, m', l) && forall p :: p in l' ==> p in l && l'[p] == l[p]
    ensures PayloadKept(m, m', l')
  {}

  /** How much of a chunk of size `s` a request for `nb` takes: all of it when the rest would be too small. */
  function TakenSize(s: nat, nb: nat): nat { if s < nb + MIN_CHUNK_SIZE then s else nb }

  /** Where a binned chunk is. */
  lemma BinnedPlace(m: Mem, s: Space, ms: int, f: Sizing, out: set<int>, p: int)
    requires HeapOk(m, s, ms) && BinnedOk(s, f, out) && p in f
    ensures p in s.chunks && !s.chunks[p].cin && p != s.top && p != s.dv && s.chunks[p].size == f[p]
    ensures p > 0 && MIN_CHUNK_SIZE <= f[p] < 0x100_0000_0000 && f[p] % 16 == 0 && HasHead(m, p, f[p], false, true)
  {
    hide HeapOk, Shape, NextFits, Mapped;
    FreeFacts(m, s, ms, p);
    FreeChunk(m, s, ms, p);
  }

  lemma BinnedWithout(s: Space, f: Sizing, out: set<int>, p: int)
    requires BinnedOk(s, f, out) && p in f
    ensures BinnedOk(s, f - {p}, out + {p})
  {}

  lemma FieldBounds(m: Mem, s: Space, ms: int)
    requires HeapOk(m, s, ms)
    ensures s.top in s.chunks && 0 < s.chunks[s.top].size < 0x100_0000_0000
    ensures s.dv != 0 ==> s.dv in s.chunks && MIN_CHUNK_SIZE <= s.chunks[s.dv].size < 0x100_0000_0000
  {
    hide HeapOk, Shape, NextFits, Mapped;
    HeapShape(m, s, ms);
    NoDv(m, s, ms);
    FreeChunk(m, s, ms, s.top);
    if s.dv != 0 { FreeChunk(m, s, ms, s.dv); }
  }

  lemma MappedAt(m: Mem, lo: int, hi: int, a: int)
    requires Mapped(m, lo, hi) && lo <= a < hi
    ensures a in m
  {}

  /** `top`, at the end of its segment. */
  ghost predicate TopPlace(m: Mem, s: Space, p: int, size: nat) {
    && p in s.chunks && size == s.chunks[p].size && !s.chunks[p].cin && s.chunks[p].pin && p > 0 && p % 16 == 0
    && size % 16 == 0 && size > 0
    && Stretch(s.chunks, s.segs, p, p + size) && Alone(s, p, p + size) && p + size !in s.chunks
    && Mapped(m, p, p + size + TOP_FOOT_SIZE) && HasHead(m, p, size, false, true)
    && (forall q :: q in s.own ==> !(p <= q < p + size))
  }

  lemma TopFacts(m: Mem, s: Space, ms: int)
    requires HeapOk(m, s, ms)
    ensures s.top in s.chunks && TopPlace(m, s, s.top, s.chunks[s.top].size)
  {
    hide HeapOk, Shape, Tiled, NextFits, Tags, Mapped, DvOk;
    HeapShape(m, s, ms);
    EndOfTop(s, ms);
    FreeChunk(m, s, ms, s.top);
    AloneIn(s, ms, s.top);
  }

  /** The first part of `top` can be taken for use. */
  lemma TopReady(m: Mem, s: Space, ms: int, f: Sizing, last: int)
    requires HeapOk(m, s, ms) && BinnedOk(s, f, {}) && s.top in s.chunks
    requires s.top < last < s.top + s.chunks[s.top].size
    ensures var p, hi := s.top, s.top + s.chunks[s.top].size;
      && Emptied(s, f, {}, p, hi, s.dv)
      && Replaceable(s, p, hi, last, false, last, s.dv)
      && Others(Live(s), p, hi) == Live(s) && p !in Live(s)
  {
    hide HeapOk, Shape, Tiled, NextFits, Tags, Backed, Coalesced, OwnOk, Mapped, TopOk, Stretch;
    HeapShape(m, s, ms);
    TopFacts(m, s, ms);
    DvInside(s, ms);
  }

  /** All of `dv`, or its first part, can be taken for use. */
  lemma DvReady(m: Mem, s: Space, ms: int, f: Sizing, last: int)
    requires HeapOk(m, s, ms) && BinnedOk(s, f, {}) && s.dv in s.chunks && s.dv != 0
    requires s.dv <= last && last + MIN_CHUNK_SIZE <= s.dv + s.chunks[s.dv].size
    ensures !s.chunks[s.dv].cin && s.dv != s.top
    ensures var p, hi, dv := s.dv, s.dv + s.chunks[s.dv].size, if last == s.dv then 0 else last;
      && Emptied(s, f, {}, p, hi, dv)
      && Replaceable(s, p, hi, last, last == p, s.top, dv)
      && Others(Live(s), p, hi) == Live(s) && p !in Live(s)
  {
    hide HeapOk, Shape, Tiled, NextFits, Tags, Backed, Coalesced, OwnOk, Mapped, TopOk, Stretch;
    HeapShape(m, s, ms);
    DvInside(s, ms);
    FreeFacts(m, s, ms, s.dv);
  }

  /** The words that cutting a free chunk in two writes, and the chunk behind it. */
  ghost predicate CutWords(m: Mem, s: Space, p: int, mid: int, hi: int) {
    && 0 < p < mid < hi && p + HEAD in m && mid + HEAD in m && hi in m && p in s.chunks && s.chunks[p].pin
    && mid !in s.chunks
    && hi in s.chunks && HasHead(m, hi, s.chunks[hi].size, true, false) && !s.chunks[hi].pin && s.chunks[hi].cin
  }

  lemma CutFacts(m: Mem, s: Space, ms: int, p: int, mid: int, hi: int)
    requires HeapOk(m, s, ms) && p in s.chunks && !s.chunks[p].cin && p != s.top
    requires hi == p + s.chunks[p].size && p < mid && mid + 16 <= hi
    ensures CutWords(m, s, p, mid, hi)
  {
    hide HeapOk, Stretch;
    FreeFacts(m, s, ms, p);
  }
}
