/** Merging a chunk that is given back with its free neighbours. */
module Freeing {
  import opened Words
  import opened Tries
  import opened Heap
  import opened HeapMemory
  import opened HeapEdits

  /** Chunk `p`, in use, with a free chunk before it or none, and another chunk behind it. */
  ghost predicate Neighbours(s: Space, p: int, lo: int) {
    && p in s.chunks && s.chunks[p].cin && p !in s.own && lo in s.chunks
    && (if s.chunks[p].pin then lo == p else !s.chunks[lo].cin && lo != s.top && lo + s.chunks[lo].size == p)
    && NextOf(s, p) in s.chunks
  }

  predicate UsedAt(s: Space, q: int) { q in s.chunks && s.chunks[q].cin }
  predicate FreeAt(s: Space, q: int) { q in s.chunks && !s.chunks[q].cin }
  function SizeOf(s: Space, q: int): nat { if q in s.chunks then s.chunks[q].size else 0 }
  function NextOf(s: Space, p: int): int { p + SizeOf(s, p) }

  /** The end of the free chunk that `p` becomes: behind the next chunk when that is free. */
  function FreeEnd(s: Space, p: int): int { if UsedAt(s, NextOf(s, p)) then NextOf(s, p) else NextOf(s, NextOf(s, p)) }

  function TopAfter(s: Space, p: int, lo: int): int { if NextOf(s, p) == s.top then lo else s.top }

  /** `dv` is swallowed by `top`, or grows. */
  function DvAfter(s: Space, p: int, lo: int): int {
    if lo == s.dv then (if NextOf(s, p) == s.top then 0 else lo) else if NextOf(s, p) == s.dv then lo else s.dv
  }

  /** The neighbours that the bins held. */
  ghost predicate OutOf(s: Space, p: int, lo: int, out: set<int>) {
    forall q ::
      q in out <==> (q == lo && lo != p && lo != s.dv) || (q == NextOf(s, p) && FreeAt(s, q) && q != s.dv && q != s.top)
  }

  /** A client's chunk is not the last one of its segment. */
  lemma NextThere(m: Mem, s: Space, ms: int, p: int)
    requires HeapOk(m, s, ms) && p in Live(s)
    ensures p in s.chunks && NextFits(s.chunks, p) && NextOf(s, p) > p > 0
  {
    hide Tiled, NextFits, Coalesced, DvOk, Tags, Backed;
    NextChunk(s.chunks, s.segs, p);
  }

  /** The neighbours of a client's chunk, as its tags and its first word tell. */
  ghost predicate Around(m: Mem, s: Space, ms: int, p: int, lo: int) {
    && Neighbours(s, p, lo) && UsedPlace(m, s, p) && lo > 0
    && (lo != p ==> NumAt(m, p, s.chunks[lo].size) && HasHead(m, lo, s.chunks[lo].size, false, true))
    && HasHead(m, NextOf(s, p), s.chunks[NextOf(s, p)].size, s.chunks[NextOf(s, p)].cin, true)
  }

  lemma AroundFrom(m: Mem, s: Space, ms: int, p: int, lo: int)
    requires HeapOk(m, s, ms) && p in Live(s) && Neighbours(s, p, lo)
    ensures Around(m, s, ms, p, lo)
  {
    hide HeapOk, Shape, Tiled, NextFits, Coalesced, DvOk, Tags, Backed, Mapped, TopOk, UsedPlace;
    UsedFacts(m, s, ms, p);
    UsedIn(m, s, p);
    NextThere(m, s, ms, p);
    NextFacts(s.chunks, p);
    FreeChunk(m, s, ms, NextOf(s, p));
    FreeChunk(m, s, ms, lo);
    if lo != p { FreeFacts(m, s, ms, lo); }
  }

  lemma NeighboursOf(m: Mem, s: Space, ms: int, p: int) returns (lo: int)
    requires HeapOk(m, s, ms) && p in Live(s)
    ensures Neighbours(s, p, lo)
  {
    hide HeapOk, Shape, Tiled, NextFits, Coalesced, DvOk, Tags, Backed, Mapped, TopOk, UsedPlace;
    HeapShape(m, s, ms);
    UsedFacts(m, s, ms, p);
    UsedIn(m, s, p);
    NextThere(m, s, ms, p);
    NextFacts(s.chunks, p);
    if s.chunks[p].pin {
      lo := p;
    } else {
      lo := PrevFree(m, s.chunks, s.segs, s.top, p);
    }
  }

  lemma UsedIn(m: Mem, s: Space, p: int)
    requires UsedPlace(m, s, p)
    ensures p in s.chunks && s.chunks[p].cin && p !in s.own && p > 0
  {}

  /** What lies behind the free chunk that `p` becomes. */
  ghost predicate EndPlace(s: Space, p: int, lo: int) {
    && Stretch(s.chunks, s.segs, lo, FreeEnd(s, p)) && FreeEnd(s, p) - lo >= MIN_CHUNK_SIZE
    && (NextOf(s, p) == s.top <==> FreeEnd(s, p) !in s.chunks)
    && (FreeEnd(s, p) in s.chunks ==> UsedAt(s, FreeEnd(s, p)))
  }

  /** The range starts with the chunk itself or with a free chunk before it. */
  predicate StartsAt(s: Space, p: int, lo: int) { lo == p || (FreeAt(s, lo) && lo != s.top && NextOf(s, lo) == p) }

  lemma AroundStarts(m: Mem, s: Space, ms: int, p: int, lo: int)
    requires Around(m, s, ms, p, lo)
    ensures p in Live(s) && StartsAt(s, p, lo)
  {}

  lemma FreeEndIs(m: Mem, s: Space, ms: int, p: int, lo: int)
    requires HeapOk(m, s, ms) && p in Live(s) && StartsAt(s, p, lo)
    ensures EndPlace(s, p, lo)
  {
    hide HeapOk, Shape, Tiled, NextFits, Coalesced, DvOk, Tags, Backed, Mapped, TopOk, EndPlace, FreePlace, TopPlace;
    LowEnd(m, s, ms, p, lo);
    if NextOf(s, p) == s.top {
      EndAtTop(m, s, ms, p, lo);
    } else if UsedAt(s, NextOf(s, p)) {
      EndAtNext(m, s, ms, p, lo);
    } else {
      EndPastNext(m, s, ms, p, lo);
    }
  }

  /** From the low end up to the chunk itself. */
  lemma LowEnd(m: Mem, s: Space, ms: int, p: int, lo: int)
    requires HeapOk(m, s, ms) && p in Live(s) && StartsAt(s, p, lo)
    ensures EndKnown(s, p, lo)
  {
    hide HeapOk, Shape, Tiled, NextFits, Coalesced, DvOk, Tags, Backed, Mapped, TopOk, UsedPlace, Live;
    UsedFacts(m, s, ms, p);
    UsedIn(m, s, p);
    UsedSize(m, s, p);
    NextThere(m, s, ms, p);
    NextFacts(s.chunks, p);
    FreeChunk(m, s, ms, p);
    FreeChunk(m, s, ms, NextOf(s, p));
    if lo != p {
      ShapeOf(m, s, ms);
      FreeFacts(m, s, ms, lo);
      FreeEndSeg(s, ms, lo);
      FreeChunk(m, s, ms, lo);
    }
  }

  lemma UsedSize(m: Mem, s: Space, p: int)
    requires UsedPlace(m, s, p)
    ensures SizeOf(s, p) >= MIN_CHUNK_SIZE && SizeOf(s, p) % 16 == 0 && SizeOf(s, p) == Live(s)[p]
  {}

  ghost predicate EndKnown(s: Space, p: int, lo: int) {
    && p in s.chunks && s.chunks[p].cin && p !in s.own && lo in s.chunks && NextOf(s, p) in s.chunks
    && s.chunks[lo].seg == s.chunks[p].seg && s.chunks[p].seg in s.segs && (p - lo) % 16 == 0 && lo <= p < NextOf(s, p)
    && SizeOf(s, p) >= MIN_CHUNK_SIZE && SizeOf(s, p) % 16 == 0 && SizeOf(s, NextOf(s, p)) % 16 == 0
    && s.chunks[NextOf(s, p)].seg == s.chunks[p].seg
  }

  lemma EndAtTop(m: Mem, s: Space, ms: int, p: int, lo: int)
    requires HeapOk(m, s, ms) && EndKnown(s, p, lo) && NextOf(s, p) == s.top
    ensures EndPlace(s, p, lo)
  {
    hide HeapOk, Shape, Tiled, NextFits, Coalesced, DvOk, Tags, Backed, Mapped, TopOk;
    HeapShape(m, s, ms);
    TopFacts(m, s, ms);
    EndOfTop(s, ms);
  }

  lemma EndAtNext(m: Mem, s: Space, ms: int, p: int, lo: int)
    requires HeapOk(m, s, ms) && EndKnown(s, p, lo) && UsedAt(s, NextOf(s, p))
    ensures EndPlace(s, p, lo)
  {
    hide HeapOk, Tiled, NextFits, Coalesced, DvOk, Tags, Backed, Mapped, TopOk, Shape;
    HeapShape(m, s, ms);
    DvInside(s, ms);
  }

  lemma EndPastNext(m: Mem, s: Space, ms: int, p: int, lo: int)
    requires HeapOk(m, s, ms) && EndKnown(s, p, lo) && FreeAt(s, NextOf(s, p)) && NextOf(s, p) != s.top
    ensures EndPlace(s, p, lo)
  {
    hide HeapOk, NextFits, Mapped, Shape;
    FreeChunk(m, s, ms, NextOf(s, p));
    ShapeOf(m, s, ms);
    FreeEndSeg(s, ms, NextOf(s, p));
    ThreeAligned(p - lo, SizeOf(s, p), SizeOf(s, NextOf(s, p)));
  }

  lemma ThreeAligned(a: int, b: int, c: int)
    requires a % 16 == 0 && b % 16 == 0 && c % 16 == 0
    ensures (a + b + c) % 16 == 0
  {}

  lemma FreeEndSeg(s: Space, ms: int, q: int)
    requires Shape(s, ms) && q in s.chunks && !s.chunks[q].cin && q != s.top
    ensures NextOf(s, q) in s.chunks && s.chunks[NextOf(s, q)].seg == s.chunks[q].seg && s.chunks[NextOf(s, q)].cin
  {
    hide Tiled, NextFits, DvOk, OwnOk;
    NextChunk(s.chunks, s.segs, q);
    NextFacts(s.chunks, q);
  }

  /** No other chunks start there. */
  lemma FreeRangeOnly(m: Mem, s: Space, ms: int, p: int, lo: int, q: int)
    requires HeapOk(m, s, ms) && p in Live(s) && StartsAt(s, p, lo) && q in s.chunks && lo <= q < FreeEnd(s, p)
    ensures q == lo || q == p || (q == NextOf(s, p) && FreeAt(s, q))
  {
    hide HeapOk, Shape, Tiled, NextFits, Coalesced, DvOk, Tags, Backed, Mapped, TopOk;
    ShapeOf(m, s, ms);
    LowEnd(m, s, ms, p, lo);
    AloneIn(s, ms, lo);
    AloneIn(s, ms, p);
    AloneIn(s, ms, NextOf(s, p));
  }

  lemma OwnOutside(m: Mem, s: Space, ms: int, p: int, lo: int)
    requires HeapOk(m, s, ms) && p in Live(s) && StartsAt(s, p, lo)
    ensures forall q :: q in s.own ==> !(lo <= q < FreeEnd(s, p))
    ensures Others(Live(s), lo, FreeEnd(s, p)) == Live(s) - {p}
  {
    hide HeapOk, Shape, Tiled, NextFits, Coalesced, DvOk, Tags, Backed, Mapped, TopOk;
    HeapShape(m, s, ms);
    LowEnd(m, s, ms, p, lo);
    forall q | q in s.chunks && lo <= q < FreeEnd(s, p) ensures q == p || FreeAt(s, q) {
      FreeRangeOnly(m, s, ms, p, lo, q);
    }
    FreeEndIs(m, s, ms, p, lo);
  }

  /** The range can become one free chunk. */
  lemma FreeReady(m: Mem, s: Space, ms: int, f: Sizing, p: int, lo: int, out: set<int>)
    requires HeapOk(m, s, ms) && Around(m, s, ms, p, lo) && OutOf(s, p, lo, out) && BinnedOk(s, f, out)
    ensures Replaceable(s, lo, FreeEnd(s, p), lo, false, TopAfter(s, p, lo), DvAfter(s, p, lo))
    ensures Emptied(s, f, out, lo, FreeEnd(s, p), DvAfter(s, p, lo))
    ensures lo in s.chunks && s.chunks[lo].pin
  {
    hide HeapOk, Shape, Tiled, NextFits, Coalesced, Tags, Backed, Mapped, TopOk, Stretch, UsedPlace;
    HeapShape(m, s, ms);
    UsedIn(m, s, p);
    AroundStarts(m, s, ms, p, lo);
    FreeEndIs(m, s, ms, p, lo);
    OwnOutside(m, s, ms, p, lo);
    DvInside(s, ms);
    if lo != p { FreeFacts(m, s, ms, lo); }
    forall q | q in s.chunks && lo <= q < FreeEnd(s, p)
      ensures q == lo || q == p || (q == NextOf(s, p) && FreeAt(s, q))
    {
      FreeRangeOnly(m, s, ms, p, lo, q);
    }
    NextThere(m, s, ms, p) by { assert p in Live(s); }
  }

  /** Nothing or the chunk before has left the bins so far. */
  ghost predicate BackOut(s: Space, p: int, lo: int, out: set<int>) {
    out == if lo != p && lo != s.dv then {lo} else {}
  }

  /** When the next chunk is in use, or `top`, or `dv`, that is all that has to leave. */
  lemma BackIsAll(m: Mem, s: Space, ms: int, p: int, lo: int, out: set<int>)
    requires HeapOk(m, s, ms) && Around(m, s, ms, p, lo) && BackOut(s, p, lo, out)
    requires UsedAt(s, NextOf(s, p)) || NextOf(s, p) == s.top || NextOf(s, p) == s.dv
    ensures OutOf(s, p, lo, out)
  {
    hide HeapOk, UsedPlace;
  }

  /** With the next chunk in use, `top` and `dv` stay. */
  lemma FieldsStay(m: Mem, s: Space, ms: int, p: int, lo: int)
    requires HeapOk(m, s, ms) && Around(m, s, ms, p, lo) && UsedAt(s, NextOf(s, p))
    ensures FreeEnd(s, p) == NextOf(s, p) && TopAfter(s, p, lo) == s.top && DvAfter(s, p, lo) == s.dv
  {
    hide HeapOk, UsedPlace, Shape;
    UsedIn(m, s, p);
    ShapeOf(m, s, ms);
    DvInside(s, ms);
  }

  /** Otherwise the next chunk is in a bin and has to leave too. */
  lemma NextBinned(m: Mem, s: Space, ms: int, p: int, lo: int, f: Sizing, out: set<int>)
    requires HeapOk(m, s, ms) && Around(m, s, ms, p, lo) && BackOut(s, p, lo, out) && BinnedOk(s, f, out)
    requires FreeAt(s, NextOf(s, p)) && NextOf(s, p) != s.top && NextOf(s, p) != s.dv
    ensures NextOf(s, p) in f && f[NextOf(s, p)] == SizeOf(s, NextOf(s, p)) && OutOf(s, p, lo, out + {NextOf(s, p)})
  {
    hide HeapOk, UsedPlace;
    UsedIn(m, s, p);
    SizePositive(m, s, ms, p);
  }

  lemma SizePositive(m: Mem, s: Space, ms: int, p: int)
    requires HeapOk(m, s, ms) && p in s.chunks
    ensures SizeOf(s, p) > 0
  {
    hide HeapOk;
    NoDv(m, s, ms);
  }

  /** The chunk before, unless it is `dv`, is in a bin. */
  lemma PrevBinned(m: Mem, s: Space, ms: int, p: int, lo: int, f: Sizing)
    requires HeapOk(m, s, ms) && Around(m, s, ms, p, lo) && BinnedOk(s, f, {}) && lo != p && lo != s.dv
    ensures lo in f && f[lo] == SizeOf(s, lo)
  {
    hide HeapOk, UsedPlace;
  }

  /** The words that the merging writes. */
  lemma FreeWords(m: Mem, s: Space, ms: int, p: int, lo: int)
    requires HeapOk(m, s, ms) && Around(m, s, ms, p, lo)
    ensures lo > 0 && lo + HEAD in m && FreeEnd(s, p) in m && FreeEnd(s, p) > p >= lo
    ensures FreeEnd(s, p) - lo >= MIN_CHUNK_SIZE
    ensures FreeEnd(s, p) in s.chunks ==>
      UsedAt(s, FreeEnd(s, p)) && HasHead(m, FreeEnd(s, p), SizeOf(s, FreeEnd(s, p)), true, UsedAt(s, NextOf(s, p)))
  {
    hide HeapOk, Shape, Tiled, NextFits, Coalesced, DvOk, Tags, Backed, TopOk, Stretch;
    UsedIn(m, s, p);
    AroundStarts(m, s, ms, p, lo);
    FreeEndIs(m, s, ms, p, lo);
    FreeChunk(m, s, ms, lo);
    FreeChunk(m, s, ms, p);
    FreeChunk(m, s, ms, NextOf(s, p));
    if FreeAt(s, NextOf(s, p)) && NextOf(s, p) != s.top { FreeFacts(m, s, ms, NextOf(s, p)); }
  }

  lemma NothingOut(s: Space, p: int, lo: int)
    requires lo == p || lo == s.dv
    ensures BackOut(s, p, lo, {})
  {}

  lemma TopEnd(m: Mem, s: Space, ms: int, p: int, lo: int)
    requires HeapOk(m, s, ms) && Around(m, s, ms, p, lo) && NextOf(s, p) == s.top
    ensures FreeEnd(s, p) == s.top + SizeOf(s, s.top) && TopAfter(s, p, lo) == lo
    ensures DvAfter(s, p, lo) == (if lo == s.dv then 0 else s.dv)
    ensures lo < s.top && FreeEnd(s, p) !in s.chunks
  {
    hide HeapOk, UsedPlace, Shape, Stretch;
    UsedIn(m, s, p);
    ShapeOf(m, s, ms);
    DvInside(s, ms);
    AroundStarts(m, s, ms, p, lo);
    FreeEndIs(m, s, ms, p, lo);
    SizePositive(m, s, ms, p);
  }

  lemma DvEnd(m: Mem, s: Space, ms: int, p: int, lo: int)
    requires HeapOk(m, s, ms) && Around(m, s, ms, p, lo) && NextOf(s, p) == s.dv && s.dv != 0
    ensures FreeEnd(s, p) == s.dv + SizeOf(s, s.dv) && TopAfter(s, p, lo) == s.top && DvAfter(s, p, lo) == lo
    ensures lo < s.dv && FreeAt(s, s.dv) && UsedAt(s, FreeEnd(s, p))
  {
    hide HeapOk, Around, Shape, Stretch;
    ShapeOf(m, s, ms);
    DvInside(s, ms);
    AroundStarts(m, s, ms, p, lo);
    FreeEndIs(m, s, ms, p, lo);
    FreeWords(m, s, ms, p, lo);
    SizePositive(m, s, ms, s.dv);
    UsedBefore(m, s, ms, p, lo);
  }

  lemma UsedBefore(m: Mem, s: Space, ms: int, p: int, lo: int)
    requires HeapOk(m, s, ms) && Around(m, s, ms, p, lo)
    ensures lo <= p < NextOf(s, p)
  {
    hide HeapOk, Shape;
    UsedIn(m, s, p);
    SizePositive(m, s, ms, p);
  }

  /** What the two routines read of the chunk and its neighbours. */
  lemma NeighbourWords(m: Mem, s: Space, ms: int, p: int, lo: int, dv: int)
    requires HeapOk(m, s, ms) && p in Live(s) && Neighbours(s, p, lo) && dv == s.dv
    ensures lo > 0 && lo in s.chunks && p in s.chunks && Live(s)[p] == SizeOf(s, p) && UsedAt(s, p)
    ensures HasHead(m, p, SizeOf(s, p), true, s.chunks[p].pin) && (s.chunks[p].pin <==> lo == p)
    ensures lo != p ==> NumAt(m, p, SizeOf(s, lo)) && lo + SizeOf(s, lo) == p && FreeAt(s, lo)
    ensures HasHead(m, NextOf(s, p), SizeOf(s, NextOf(s, p)), UsedAt(s, NextOf(s, p)), true) && NextOf(s, p) in s.chunks
    ensures BackOut(s, p, lo, if lo != p && lo != s.dv then {lo} else {})
    ensures dv == NextOf(s, p) ==> dv != 0
    ensures NextOf(s, p) > p >= lo && s.chunks[lo].seg in s.segs && s.chunks[lo].seg <= lo && (lo == p ==> lo != dv)
  {
    hide HeapOk, Shape;
    AroundFrom(m, s, ms, p, lo);
    SizePositive(m, s, ms, lo);
    SizePositive(m, s, ms, p);
    ShapeOf(m, s, ms);
    DvInside(s, ms);
    FreeChunk(m, s, ms, lo);
  }

  // ----- changing the size of a client's chunk -----

  /** How far a client's chunk could reach: over a free next chunk. */
  function Room(s: Space, p: int): nat { if FreeEnd(s, p) > p then FreeEnd(s, p) - p else 0 }

  /** The chunk can be cut in two. */
  lemma CutReady(m: Mem, s: Space, ms: int, f: Sizing, p: int, mid: int)
    requires HeapOk(m, s, ms) && BinnedOk(s, f, {}) && p in Live(s) && p < mid && mid + MIN_CHUNK_SIZE <= NextOf(s, p)
    ensures Replaceable(s, p, NextOf(s, p), mid, true, s.top, s.dv) && Emptied(s, f, {}, p, NextOf(s, p), s.dv)
    ensures Others(Live(s), p, NextOf(s, p)) == Live(s) - {p} && p in s.chunks && mid !in Live(s)
    ensures NextOf(s, p) in s.chunks && HasHead(m, NextOf(s, p), SizeOf(s, NextOf(s, p)), UsedAt(s, NextOf(s, p)), true)
  {
    hide HeapOk, Shape, Tiled, NextFits, Coalesced, Tags, Backed, Mapped, TopOk, Stretch;
    HeapShape(m, s, ms);
    UsedFacts(m, s, ms, p);
    NextThere(m, s, ms, p);
    NextFacts(s.chunks, p);
    UsedStretch(m, s, ms, p);
    FreeChunk(m, s, ms, NextOf(s, p));
    DvInside(s, ms);
  }

  lemma UsedStretch(m: Mem, s: Space, ms: int, p: int)
    requires HeapOk(m, s, ms) && p in Live(s)
    ensures Stretch(s.chunks, s.segs, p, NextOf(s, p))
  {
    hide HeapOk, Shape, Tiled, NextFits, Coalesced, Tags, Backed, Mapped, TopOk;
    LowEnd(m, s, ms, p, p);
  }

  /** The chunk can grow over the free chunk behind it, which is `top`, `dv`, or has been unlinked. */
  lemma GrowReady(m: Mem, s: Space, ms: int, f: Sizing, out: set<int>, p: int, last: int, u: bool, top: int, dv: int)
    requires HeapOk(m, s, ms) && BinnedOk(s, f, out) && p in Live(s) && FreeAt(s, NextOf(s, p))
    requires p <= last < FreeEnd(s, p)
    requires NextOf(s, p) == s.top ==> out == {} && !u && top == last && dv == s.dv
    requires NextOf(s, p) == s.dv ==> out == {} && top == s.top && (if u then dv == 0 else dv == last)
    requires NextOf(s, p) != s.top && NextOf(s, p) != s.dv ==> out == {NextOf(s, p)} && u && top == s.top && dv == s.dv
    requires NextOf(s, p) != s.top ==> last + MIN_CHUNK_SIZE <= FreeEnd(s, p)
    ensures Replaceable(s, p, FreeEnd(s, p), last, u, top, dv) && Emptied(s, f, out, p, FreeEnd(s, p), dv)
    ensures Others(Live(s), p, FreeEnd(s, p)) == Live(s) - {p} && p in s.chunks && (last != p ==> last !in Live(s))
  {
    hide HeapOk, Shape, Tiled, NextFits, Coalesced, Tags, Backed, Mapped, TopOk, Stretch, UsedPlace;
    HeapShape(m, s, ms);
    FreeEndIs(m, s, ms, p, p);
    OwnOutside(m, s, ms, p, p);
    DvInside(s, ms);
    NextThere(m, s, ms, p);
    forall q | q in s.chunks && p <= q < FreeEnd(s, p) ensures q == p || (q == NextOf(s, p) && FreeAt(s, q)) {
      FreeRangeOnly(m, s, ms, p, p, q);
    }
    NextInside(m, s, ms, p);
  }

  lemma NextInside(m: Mem, s: Space, ms: int, p: int)
    requires HeapOk(m, s, ms) && p in Live(s) && FreeAt(s, NextOf(s, p))
    ensures p < NextOf(s, p) < FreeEnd(s, p)
  {
    hide HeapOk;
    LowEnd(m, s, ms, p, p);
    SizePositive(m, s, ms, NextOf(s, p));
  }

  lemma DvIsFree(m: Mem, s: Space, ms: int)
    requires HeapOk(m, s, ms) && s.dv != 0
    ensures FreeAt(s, s.dv) && s.dv != s.top
  {
    hide Tiled, TopOk, Coalesced, Tags, Backed;
  }

  lemma TopIsNotDv(m: Mem, s: Space, ms: int)
    requires HeapOk(m, s, ms)
    ensures s.top > 0 && s.top != s.dv
  {
    hide HeapOk, Shape;
    TopFacts(m, s, ms);
    ShapeOf(m, s, ms);
    DvInside(s, ms);
  }

  /** One chunk's part of what is kept. */
  lemma KeptOne(m: Mem, m': Mem, l: Sizing, p: int)
    requires PayloadKept(m, m', l) && p in l
    ensures forall a :: InPayload(p, l[p], a) && a in m ==> a in m' && m'[a] == m[a]
  {}

  lemma LiveSize(m: Mem, s: Space, ms: int, p: int)
    requires HeapOk(m, s, ms) && p in Live(s)
    ensures SizeOf(s, p) == Live(s)[p] && p > 0 && p % 16 == 0 && MIN_CHUNK_SIZE <= SizeOf(s, p) < 0x100_0000_0000
  {
    hide HeapOk;
    UsedFacts(m, s, ms, p);
    FreeChunk(m, s, ms, p);
  }

  lemma FreeIsBinned(s: Space, f: Sizing, q: int)
    requires BinnedOk(s, f, {}) && FreeAt(s, q) && q != s.top && q != s.dv
    ensures q in f && f[q] == SizeOf(s, q)
  {}

  /** What `try_realloc_chunk` reads of the chunk and the next one. */
  lemma ReallocWords(m: Mem, s: Space, ms: int, p: int)
    requires HeapOk(m, s, ms) && p in Live(s)
    ensures var n := NextOf(s, p);
      && p in s.chunks && HasHead(m, p, SizeOf(s, p), true, s.chunks[p].pin) && s.chunks[p].seg in s.segs
      && s.chunks[p].seg <= p && p > 0
      && n in s.chunks && n > p && HasHead(m, n, SizeOf(s, n), UsedAt(s, n), true)
      && (n == s.top || (n == s.dv && s.dv != 0) ==> FreeAt(s, n)) && n != 0
      && FreeEnd(s, p) == (if FreeAt(s, n) then n + SizeOf(s, n) else n)
      && Room(s, p) == FreeEnd(s, p) - p
  {
    hide HeapOk, Shape;
    UsedFacts(m, s, ms, p);
    NextThere(m, s, ms, p);
    NextFacts(s.chunks, p);
    FreeChunk(m, s, ms, p);
    FreeChunk(m, s, ms, NextOf(s, p));
    ShapeOf(m, s, ms);
    DvInside(s, ms);
  }
}
