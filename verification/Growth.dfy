/** `sys_alloc`: an mspace that gets more memory from the system. */
module Growth {
  import opened Words
  import opened BinMap
  import opened Tries
  import opened Bins
  import opened Search
  import opened Heap
  import opened HeapMemory
  import opened HeapEdits
  import opened Freeing
  import opened Bitwise
  import opened Bytes
  import opened Regions
  import opened Records
  import opened Growing
  import opened Effects
  import opened Mspaces

  /** `SYS_ALLOC_PADDING` */
  const PADDING: nat := 96

  /** `granularity_align`, in 64-bit arithmetic. */
  function GranularityAlign(x: nat): nat { And64((x + GRANULARITY - 1) % TWO64, TWO64 - GRANULARITY) }

  /** The size to ask for would wrap around. */
  predicate TooLarge(nb: nat) { nb + PADDING + GRANULARITY > TWO64 }

  /** How much memory `sys_alloc` asks for. */
  function AskedSize(nb: nat): nat { GranularityAlign((nb + PADDING) % TWO64) }

  lemma GranularityIsPower()
    ensures GRANULARITY == Pow2(16)
  {
    Pow2Values();
  }

  /** The size asked for is larger than the request exactly when computing it does not wrap around; then it is enough.
      */
  lemma AskedEnough(nb: nat)
    requires nb < TWO64
    ensures AskedSize(nb) > nb <==> nb + PADDING + GRANULARITY <= TWO64
    ensures AskedSize(nb) > nb ==> AskedSize(nb) >= nb + PADDING && Granular(AskedSize(nb))
  {
    hide And64;
    if nb + PADDING + GRANULARITY <= TWO64 {
      RoundedUp(nb + PADDING);
      assert AskedSize(nb) == And64(nb + PADDING + GRANULARITY - 1, TWO64 - GRANULARITY);
    } else {
      MaskedDown(((nb + PADDING) % TWO64 + GRANULARITY - 1) % TWO64);
      Wrapped(nb + PADDING);
    }
  }

  lemma RoundedUp(x: nat)
    requires x + GRANULARITY <= TWO64
    ensures var r := And64(x + GRANULARITY - 1, TWO64 - GRANULARITY); r >= x && Granular(r)
  {
    hide And64;
    GranularityIsPower();
    AlignUp(x, GRANULARITY, 16);
  }

  lemma MaskedDown(y: nat)
    requires y < TWO64
    ensures And64(y, TWO64 - GRANULARITY) <= y
  {
    hide And64;
    GranularityIsPower();
    Pow2Values();
    HighMask(y, 16, 64);
  }

  lemma Wrapped(x: nat)
    requires TWO64 < x + GRANULARITY && x < TWO64 + PADDING
    ensures (x % TWO64 + GRANULARITY - 1) % TWO64 == x + GRANULARITY - 1 - TWO64
  {}

  /** Whether the system could map a region there. */
  predicate Mappable(r: seq<Region>, tbase: int, tsize: nat) {
    NewRegion(r, tbase, tsize) && forall i :: 0 <= i < |r| ==> r[i].size + tsize < 0x100_0000_0000
  }

  /** The system maps a region of that size. */
  predicate Granted(a: seq<Answer>, k: nat, r: seq<Region>, tsize: nat) {
    Said(a, k).yes && Mappable(r, Said(a, k).base, tsize)
  }

  /** The new region continues that of `top`, whose record is the first one. */
  predicate Continues(r: seq<Region>, tbase: int) { r != [] && EndOf(r[0]) == tbase && !r[0].pinned }

  /** The new region ends where region `i`, the first such one, starts. */
  ghost predicate Precedes(r: seq<Region>, end: int, i: int) {
    0 <= i < |r| && r[i].base == end && !r[i].pinned && forall j :: 0 <= j < i ==> r[j].base != end
  }

  ghost predicate Preceded(r: seq<Region>, end: int) { exists i :: Precedes(r, end, i) }

  /** What `sys_alloc` does with a region: it enlarges that of `top`, or is put in front of another one, or becomes a
      segment of its own, and the request is served from `top` or from the front. */
  ghost predicate Grown(v: View, tbase: int, tsize: nat, nb: nat, at: int, v': View) {
    var s, s' := v.space, v'.space;
    && at - 16 !in Live(s) && Live(s') == Live(s)[at - 16 := nb] && at != 0
    && v'.asked == v.asked && v'.releaseChecks == v.releaseChecks
    && if Continues(s.regs, tbase) then
         && at - 16 == s.top && s'.top == s.top + nb && s'.dv == s.dv && v'.trimCheck == DEFAULT_TRIM_THRESHOLD
         && s'.regs == s.regs[0 := Region(s.regs[0].base, s.regs[0].size + tsize, false)]
       else if Preceded(s.regs, tbase + tsize) then
         && at - 16 == tbase && s'.top == FrontTop(s, tbase + tsize, tbase + nb) && v'.trimCheck == v.trimCheck
         && s'.dv == FrontDv(s, tbase + tsize, tbase + nb)
         && forall i :: Precedes(s.regs, tbase + tsize, i) ==>
           s'.regs == s.regs[i := Region(tbase, s.regs[i].size + tsize, false)]
       else
         && at - 16 == tbase && s'.top == tbase + nb && s'.dv == s.dv && v'.trimCheck == DEFAULT_TRIM_THRESHOLD
         && s'.regs == [Region(tbase, tsize, false)] + s.regs
  }

  /** `sys_alloc` asks for a size that has not wrapped around, and uses what it gets. */
  ghost predicate SysAllocDoes(a: seq<Answer>, v: View, nb: nat, at: int, v': View) {
    if TooLarge(nb) then at == 0 && v' == v
    else
      var v1 := v.(asked := v.asked + 1);
      if Granted(a, v.asked, v.space.regs, AskedSize(nb))
      then Grown(v1, Said(a, v.asked).base, AskedSize(nb), nb, at, v')
      else at == 0 && v' == v1
  }

  /** `mspace_malloc`: the system is asked only when no free chunk is large enough. */
  ghost predicate MallocDoes(a: seq<Answer>, v: View, nb: nat, at: int, v': View) {
    if NothingFree(v.space, nb) then SysAllocDoes(a, v, nb, at, v')
    else at != 0 && Taken(v.space, nb, at - 16, v'.space) && v' == v.(space := v'.space)
  }

  /** Nothing free is large enough, and the system is not asked or refuses. */
  ghost predicate Fails(a: seq<Answer>, v: View, nb: nat) {
    && NothingFree(v.space, nb)
    && (TooLarge(nb) || !Granted(a, v.asked, v.space.regs, AskedSize(nb)))
  }

  /** What the system may hand out for a request of `tsize` bytes: a new region, and the words in it. */
  ghost predicate Grant(r: seq<Region>, tbase: int, tsize: nat, words: Mem) {
    Mappable(r, tbase, tsize) && forall a :: a in words <==> tbase <= a < tbase + tsize
  }

  /** The regions as the records in memory list them. */
  method ListRegions(m: Mspace) returns (r: seq<Region>)
    requires m.Valid()
    ensures r == m.space.regs
  {
    hide BinsHold, HeapOk, BinnedOk, ListOk, SegsAbove, BinsAbove, Headed;
    ListLength(m.mem, m.space, m.ms, m.space.regs);
    var sp := m.ms + SEG;
    ghost var i := 0;
    StateInMemory(m.mem, m.space, m.ms);
    r := [];
    while sp != 0
      invariant i <= |m.space.regs| && (sp == 0 <==> i == |m.space.regs|) && r == m.space.regs[..i]
      invariant sp != 0 ==> sp == RecordAt(m.space, m.ms, i)
      decreases |m.space.regs| - i
    {
      var x, next := m.ReadRecord(sp, i);
      r := r + [x];
      sp := next;
      i := i + 1;
    }
  }

  /** `CALL_MMAP`: the system refuses, or it maps a new region, anywhere it likes and with whatever words in it. */
  method SystemMap(m: Mspace, tsize: nat) returns (mapped: bool, tbase: int, words: Mem)
    requires m.Valid()
    modifies m`asked
    ensures m.Valid() && m.asked == old(m.asked) + 1
    ensures mapped == Granted(m.answers, old(m.asked), m.space.regs, tsize)
    ensures mapped ==> tbase == Said(m.answers, old(m.asked)).base && Grant(m.space.regs, tbase, tsize, words)
  {
    hide BinsHold, HeapOk, BinnedOk, ListOk, SegsAbove, BinsAbove, Headed, Mappable;
    var answer := Said(m.answers, m.asked);
    m.asked := m.asked + 1;
    tbase := answer.base;
    words := map x: int | tbase <= x < tbase + tsize :: if x in answer.words then answer.words[x] else Data(0);
    var regions := ListRegions(m);
    mapped := answer.yes && Mappable(regions, tbase, tsize);
  }

  /** The new region is part of memory, and not yet of the heap. */
  ghost predicate Obtained(m: Mspace, tbase: int, tsize: nat)
    reads m
  {
    && NewRegion(m.space.regs, tbase, tsize) && Mapped(m.mem, tbase, tbase + tsize)
    && forall i :: 0 <= i < |m.space.regs| ==> m.space.regs[i].size + tsize < 0x100_0000_0000
  }

  /** The system maps the region. */
  method Obtain(m: Mspace, tbase: int, tsize: nat, words: Mem)
    requires m.Valid() && Grant(m.space.regs, tbase, tsize, words)
    modifies m`mem
    ensures m.Valid() && Obtained(m, tbase, tsize) && PayloadKept(old(m.mem), m.mem, Live(m.space))
  {
    hide BinsHold, HeapOk, BinnedOk, Live, PayloadKept, RegionsOk, NewRegion, ListOk, Headed, SegsAbove, BinsAbove;
    ghost var m0 := m.mem;
    m.mem := m.mem + words;
    BinnedFree(m.space, m.binned, {});
    SegsRegions(m0, m.space, m.ms);
    Outside(m0, m.mem, m.space, m.ms, tbase, tsize, m.binned, m.held, m.smallmap, m.treemap);
    OutsideList(m0, m.mem, m.space, m.ms, tbase, tsize, m.space.regs);
  }

  /** The new region continues the segment of `top`, whose record says so already. */
  method Append(m: Mspace, sp: int, tbase: int, tsize: nat)
    requires m.Valid() && Obtained(m, tbase, tsize) && m.space.regs != [] && tbase == EndOf(m.space.regs[0])
    requires sp == RecordAt(m.space, m.ms, 0)
    modifies m`mem, m`top, m`topsize, m`trimCheck, m`seg, m`space
    ensures m.Valid() && m.top in old(m.space).chunks && m.space == AppendedSpace(old(m.space), tsize)
    ensures m.topsize == old(m.topsize) + tsize && Live(m.space) == old(Live(m.space))
    ensures PayloadKept(old(m.mem), m.mem, Live(m.space)) && m.trimCheck == DEFAULT_TRIM_THRESHOLD
  {
    hide BinsHold, HeapOk, BinnedOk, Live, PayloadKept, RegionsOk, Shape, ListOk, SegsAbove, BinsAbove, Granular;
    ghost var m0, s := m.mem, m.space;
    ShapeOf(m0, s, m.ms);
    SegsRegions(m0, s, m.ms);
    TopBoundsHold(s, m.ms);
    TopFacts(m0, s, m.ms);
    DvInside(s, m.ms);
    m.seg := Region(m.seg.base, m.seg.size + tsize, m.seg.pinned);
    m.InitTop(m.top, m.topsize + tsize);
    Appended(m0, m.mem, s, m.ms, tbase, tsize, m.binned, m.held, m.smallmap, m.treemap);
    AppendedSegs(m0, m.mem, s, m.ms, tbase, tsize);
    AppendedFields(s, tbase, tsize);
    AppendedAbove(s, tbase, tsize, m.leastAddr);
    m.space := AppendedSpace(s, tsize);
  }

  /** `align_offset` */
  function AlignOffset(a: int): nat { if a % 16 == 0 then 0 else 16 - a % 16 }

  /** The loop of `add_segment`. */
  method InsertFenceposts(m: Mspace, tnext: int, oldEnd: int) returns (nfences: nat)
    requires tnext + 32 <= oldEnd && (oldEnd - tnext) % 8 == 0 && Mapped(m.mem, tnext, oldEnd)
    modifies m`mem
    ensures nfences >= 2 && Fenced(m.mem, tnext, oldEnd) && ChangedIn(old(m.mem), m.mem, tnext + HEAD, oldEnd)
  {
    var p := tnext;
    nfences := 0;
    while true
      invariant p == WordAt(tnext, nfences) && p + 16 <= oldEnd && (oldEnd - p) % 8 == 0
      invariant ChangedIn(old(m.mem), m.mem, tnext + HEAD, oldEnd)
      invariant forall j: nat :: j < nfences ==> HasHead(m.mem, WordAt(tnext, j), 8, true, true)
      decreases oldEnd - p
    {
      var nextp := p + 8;
      m.mem := Store(m.mem, p + HEAD, Head(8, true, true));
      nfences := nfences + 1;
      if nextp + HEAD < oldEnd {
        p := nextp;
      } else {
        break;
      }
    }
  }

  /** The record in the state is copied to memory. */
  method StoreRecord(m: Mspace, ss: int)
    requires ss in m.mem && ss + 8 in m.mem && ss + 16 in m.mem && ss + 24 in m.mem
    modifies m`mem
    ensures RecordWords(m.mem, ss, m.seg, m.segNext) && ChangedIn(old(m.mem), m.mem, ss, ss + 25)
  {
    m.mem := Store(m.mem, ss, Data(m.seg.base));
    m.mem := Store(m.mem, ss + 8, Data(m.seg.size));
    m.mem := Store(m.mem, ss + 16, Data(m.segNext));
    m.mem := Store(m.mem, ss + 24, Data(Flags(m.seg)));
  }

  /** The writes of `add_segment` to the old segment: the head of the record's chunk, the record and the fenceposts. */
  method CloseSegment(m: Mspace, csp: int, ssize: nat, oldEnd: int) returns (nfences: nat)
    requires Mapped(m.mem, csp, oldEnd) && ssize == RECORD_SIZE
    requires csp + RECORD_SIZE + 32 <= oldEnd && (oldEnd - csp) % 8 == 0
    modifies m`mem
    ensures HasHead(m.mem, csp, RECORD_SIZE, true, true) && nfences >= 2 && Fenced(m.mem, csp + RECORD_SIZE, oldEnd)
    ensures RecordWords(m.mem, csp + 16, m.seg, m.segNext) && ChangedIn(old(m.mem), m.mem, csp + HEAD, oldEnd)
  {
    hide Fenced;
    m.mem := Store(m.mem, csp + HEAD, Head(ssize, true, true));
    StoreRecord(m, csp + 16);
    nfences := InsertFenceposts(m, csp + ssize, oldEnd);
  }

  /** The writes of `add_segment`: the heads of the new `top`, the record and the fenceposts. */
  method OpenSegment(m: Mspace, tbase: int, tsize: nat, csp: int, ssize: nat, oldEnd: int) returns (nfences: nat)
    requires tsize > TOP_FOOT_SIZE && Mapped(m.mem, tbase, tbase + tsize) && Mapped(m.mem, csp, oldEnd)
    requires ssize == RECORD_SIZE && csp + RECORD_SIZE + 32 <= oldEnd && (oldEnd - csp) % 8 == 0
    requires (oldEnd <= tbase || tbase + tsize <= csp) && EndOf(m.seg) == oldEnd
    modifies m`mem, m`top, m`topsize, m`trimCheck, m`seg, m`segNext
    ensures m.top == tbase && m.topsize == tsize - TOP_FOOT_SIZE && m.trimCheck == DEFAULT_TRIM_THRESHOLD
    ensures m.seg == Region(tbase, tsize, false) && m.segNext == csp + 16
    ensures HasHead(m.mem, tbase, tsize - TOP_FOOT_SIZE, false, true)
    ensures HasHead(m.mem, tbase + tsize - TOP_FOOT_SIZE, TOP_FOOT_SIZE, false, false)
    ensures HasHead(m.mem, csp, RECORD_SIZE, true, true) && nfences >= 2
    ensures RecordInMem(m.mem, csp + 16, old(m.seg), old(m.segNext))
    ensures OpenedIn(old(m.mem), m.mem, tbase, tsize, csp, oldEnd)
  {
    hide Fenced;
    m.InitTop(tbase, tsize - TOP_FOOT_SIZE);
    nfences := CloseSegment(m, csp, ssize, oldEnd);
    m.seg := Region(tbase, tsize, false);
    m.segNext := csp + 16;
  }

  /** Words have changed only in the new region and behind `csp` in the old one. */
  ghost predicate OpenedIn(m: Mem, m': Mem, tbase: int, tsize: nat, csp: int, oldEnd: int) {
    && (forall a :: a in m ==> a in m')
    && forall a :: a in m && m'[a] != m[a] ==> tbase <= a < tbase + tsize || csp < a < oldEnd
  }

  /** `add_segment` puts the record behind what is left of `top` when that is large enough for a chunk. */
  method RecordSpot(m: Mspace, oldTop: int) returns (csp: int, ssize: nat, oldEnd: int)
    requires m.Valid() && oldTop == m.top
    ensures csp == RecordPlace(m.space) && ssize == RECORD_SIZE && oldEnd == TopEndOf(m.space) + TOP_FOOT_SIZE
    ensures oldEnd == EndOf(m.seg)
  {
    hide BinsHold, HeapOk, BinnedOk, RegionsOk, Shape, SegmentHolds, ListOk, SegsAbove, BinsAbove, Granular;
    ShapeOf(m.mem, m.space, m.ms);
    SegsRegions(m.mem, m.space, m.ms);
    TopBoundsHold(m.space, m.ms);
    TopHeld(m.space, m.ms);
    var sp, r, i := m.SegmentHolding(oldTop);
    oldEnd := r.base + r.size;
    ssize := PadRequest(32);
    var rawsp := oldEnd - (ssize + 32 + 15);
    var asp := rawsp + AlignOffset(rawsp + 16);
    csp := if asp < oldTop + MIN_CHUNK_SIZE then oldTop else asp;
  }

  lemma OpenReady(m: Mem, s: Space, ms: int, tbase: int, tsize: nat)
    requires HeapOk(m, s, ms) && RegionsOk(s.segs, TopSeg(s), s.regs) && NewRegion(s.regs, tbase, tsize)
    ensures var csp, oldEnd := RecordPlace(s), TopEndOf(s) + TOP_FOOT_SIZE;
      && s.top in s.chunks && tsize > TOP_FOOT_SIZE && Mapped(m, csp, oldEnd) && csp + RECORD_SIZE + 32 <= oldEnd
      && (oldEnd - csp) % 8 == 0
      && (oldEnd <= tbase || tbase + tsize <= csp) && (csp != s.top ==> csp == NextOf(s, s.top)) && s.top <= csp
      && (s.top + HEAD in m && (oldEnd <= tbase || tbase + tsize <= s.top))
  {
    hide HeapOk, Shape, RegionsOk, NewRegion;
    ShapeOf(m, s, ms);
    TopBoundsHold(s, ms);
    TopFacts(m, s, ms);
    SegmentPlace(s, ms, tbase, tsize, TopSeg(s));
    NewRegionSize(s.regs, tbase, tsize);
  }

  /** `set_free_with_pinuse` */
  method SetFreeWithPinuse(m: Mspace, q: int, psize: nat, tn: int)
    requires tn == q + psize && psize >= 16 && q + HEAD in m.mem && tn in m.mem && tn + HEAD in m.mem
    requires m.mem[tn + HEAD].Head?
    modifies m`mem
    ensures m.mem == old(m.mem)[tn + HEAD := old(m.mem[tn + HEAD]).(pin := false)]
      [q + HEAD := Head(psize, false, true)][tn := Data(psize)]
  {
    var n := LoadHead(m.mem, tn);
    m.mem := Store(m.mem, tn + HEAD, n.(pin := false));
    m.mem := Store(m.mem, q + HEAD, Head(psize, false, true));
    m.mem := Store(m.mem, q + psize, Data(psize));
  }

  /** All writes together give the tags of the space with the new segment. */
  lemma AddedWords(m0: Mem, m1: Mem, m2: Mem, s: Space, ms: int, tbase: int, tsize: nat)
    requires HeapOk(m0, s, ms) && RegionsOk(s.segs, TopSeg(s), s.regs) && NewRegion(s.regs, tbase, tsize)
    requires Mapped(m0, tbase, tbase + tsize)
    requires OpenedIn(m0, m1, tbase, tsize, RecordPlace(s), TopEndOf(s) + TOP_FOOT_SIZE)
    requires HasHead(m1, RecordPlace(s), RECORD_SIZE, true, true)
    requires tsize > TOP_FOOT_SIZE && HasHead(m1, tbase, tsize - TOP_FOOT_SIZE, false, true)
    requires HasHead(m1, tbase + tsize - TOP_FOOT_SIZE, TOP_FOOT_SIZE, false, false)
    requires m2 == FreedRest(m1, s.top, RecordPlace(s))
    ensures KeptButTop(m0, m2, s, tbase, tsize) && AddedTagged(m2, s, tbase, tsize)
  {
    hide HeapOk, Shape, RegionsOk, NewRegion;
    OpenReady(m0, s, ms, tbase, tsize);
    ShapeOf(m0, s, ms);
    TopBoundsHold(s, ms);
  }

  /** What `set_free_with_pinuse` writes is no part of the record. */
  lemma RecordStays(m: Mem, m': Mem, csp: int, q: int, h: Word, w: Word, d: Word, r: Region, next: int)
    requires RecordInMem(m, csp + 16, r, next) && q + 16 <= csp && m' == m[csp + HEAD := h][q + HEAD := w][csp := d]
    ensures RecordInMem(m', csp + 16, r, next)
  {
    var lo := csp + RECORD_SIZE;
    forall j: nat | WordAt(lo, j) + HEAD < EndOf(r) ensures HasHead(m', WordAt(lo, j), 8, true, true) {
      assert HasHead(m, WordAt(lo, j), 8, true, true);
    }
  }

  /** The writes of `add_segment`, up to the head of what is left of the old `top`. */
  method CloseOldTop(m: Mspace, tbase: int, tsize: nat) returns (csp: int, nfences: nat, ghost m1: Mem)
    requires m.Valid() && Obtained(m, tbase, tsize)
    modifies m`mem, m`top, m`topsize, m`trimCheck, m`seg, m`segNext
    ensures csp == RecordPlace(m.space) && nfences >= 2
    ensures csp != old(m.top) ==> csp - old(m.top) == SizeOf(m.space, old(m.top)) >= MIN_CHUNK_SIZE
    ensures m.top == tbase && m.topsize == tsize - TOP_FOOT_SIZE && tsize > TOP_FOOT_SIZE
    ensures m.seg == Region(tbase, tsize, false) && m.segNext == csp + 16 && m.trimCheck == DEFAULT_TRIM_THRESHOLD
    ensures OpenedIn(old(m.mem), m1, tbase, tsize, csp, TopEndOf(m.space) + TOP_FOOT_SIZE)
    ensures HasHead(m1, tbase, tsize - TOP_FOOT_SIZE, false, true)
    ensures HasHead(m1, tbase + tsize - TOP_FOOT_SIZE, TOP_FOOT_SIZE, false, false)
    ensures HasHead(m1, csp, RECORD_SIZE, true, true) && m.mem == FreedRest(m1, old(m.top), csp)
    ensures RecordInMem(m.mem, csp + 16, old(m.seg), old(m.segNext))
  {
    hide NextOf, BinsHold, HeapOk, BinnedOk, Live, RegionsOk, Shape, RecordInMem, NewRegion, OpenedIn;
    hide Mapped, RecordPlace, ListOk, SegsAbove, BinsAbove, Granular, EndOf, Headed;
    ghost var m0, s := m.mem, m.space;
    SegsRegions(m0, s, m.ms);
    OpenReady(m0, s, m.ms, tbase, tsize);
    ghost var seg0, next0 := m.seg, m.segNext;
    var oldTop := m.top;
    var ssize, oldEnd;
    csp, ssize, oldEnd := RecordSpot(m, oldTop);
    nfences := OpenSegment(m, tbase, tsize, csp, ssize, oldEnd);
    m1 := m.mem;
    if csp != oldTop {
      var psize := csp - oldTop;
      OpenWords(m0, m1, s, m.ms, tbase, tsize);
      SetFreeWithPinuse(m, oldTop, psize, csp);
      RecordStays(m1, m.mem, csp, oldTop, m.mem[csp + HEAD], m.mem[oldTop + HEAD], Data(psize), seg0, next0);
    }
  }

  /** `add_segment`: the old segment is closed by its record and fenceposts, what is left of `top` goes into a bin, and
      the new region becomes `top`. */
  method AddSegment(m: Mspace, tbase: int, tsize: nat)
    requires m.Valid() && Obtained(m, tbase, tsize) && m.leastAddr <= tbase
    modifies m`mem, m`top, m`topsize, m`trimCheck, m`seg, m`segNext, m`space, m`smallmap, m`treemap, m`binned, m`held
    ensures m.Valid() && old(m.top) in old(m.space).chunks && m.space == AddedSpace(old(m.space), tbase, tsize)
    ensures m.topsize == tsize - TOP_FOOT_SIZE && Live(m.space) == old(Live(m.space))
    ensures PayloadKept(old(m.mem), m.mem, Live(m.space)) && m.trimCheck == DEFAULT_TRIM_THRESHOLD
  {
    hide NextOf, BinsHold, HeapOk, BinnedOk, Live, PayloadKept, RegionsOk, Shape, RecordInMem, NewRegion, OpenedIn;
    hide KeptButTop;
    hide AddedTagged, Mapped, RecordPlace, AddedSpace, ListOk, SegsAbove, BinsAbove, Granular, EndOf, AddedRecord;
    hide FreedRest;
    ghost var m0, s := m.mem, m.space;
    SegsRegions(m0, s, m.ms);
    ShapeOf(m0, s, m.ms);
    AddedFields(s, m.ms, tbase, tsize);
    AddedAbove(s, m.ms, tbase, tsize, m.leastAddr);
    AddedHead(s, tbase, tsize);
    ghost var seg0, next0 := m.seg, m.segNext;
    var oldTop := m.top;
    var csp, nfences, m1 := CloseOldTop(m, tbase, tsize);
    NewSegment(m, m0, m1, s, tbase, tsize, seg0, next0);
    m.space := AddedSpace(s, tbase, tsize);
    ghost var m2 := m.mem;
    if csp != oldTop {
      m.InsertChunk(oldTop, csp - oldTop);
      KeptTrans(m0, m2, m.mem, Live(s));
    }
  }

  /** All that holds once the writes are done. */
  lemma NewSegment(m: Mspace, m0: Mem, m1: Mem, s: Space, tbase: int, tsize: nat, seg0: Region, next0: int)
    requires HeapOk(m0, s, m.ms) && SegsOk(m0, s, m.ms) && NewRegion(s.regs, tbase, tsize)
    requires Mapped(m0, tbase, tbase + tsize)
    requires OpenedIn(m0, m1, tbase, tsize, RecordPlace(s), TopEndOf(s) + TOP_FOOT_SIZE)
    requires HasHead(m1, RecordPlace(s), RECORD_SIZE, true, true) && tsize > TOP_FOOT_SIZE && s.top in s.chunks
    requires HasHead(m1, tbase, tsize - TOP_FOOT_SIZE, false, true)
    requires HasHead(m1, tbase + tsize - TOP_FOOT_SIZE, TOP_FOOT_SIZE, false, false)
    requires m.mem == FreedRest(m1, s.top, RecordPlace(s))
    requires Headed(s.regs, s.recs, seg0, next0) && RecordInMem(m.mem, RecordPlace(s) + 16, seg0, next0)
    requires BinnedOk(s, m.binned, {}) && BinsHold(m0, m.binned, m.ms, m.held, m.smallmap, m.treemap)
    ensures var s' := AddedSpace(s, tbase, tsize);
      && HeapOk(m.mem, s', m.ms) && SegsOk(m.mem, s', m.ms) && BinnedOk(s', m.binned, LeftOut(s))
      && BinsHold(m.mem, m.binned, m.ms, m.held, m.smallmap, m.treemap)
      && Live(s') == Live(s) && PayloadKept(m0, m.mem, Live(s))
  {
    hide HeapOk, BinnedOk, BinsHold, RegionsOk, OpenedIn, KeptButTop, AddedTagged, Mapped, AddedSpace, ListOk;
    hide RecordInMem;
    hide NewRegion, LeftOut, Live, PayloadKept, RecordPlace, FreedRest;
    SegsRegions(m0, s, m.ms);
    AddedWords(m0, m1, m.mem, s, m.ms, tbase, tsize);
    Added(m0, m.mem, s, m.ms, tbase, tsize, m.binned, m.held, m.smallmap, m.treemap);
    AddedSegs(m0, m.mem, s, m.ms, tbase, tsize);
  }

  /** Memory after `set_free_with_pinuse` on what is left of `top`, if anything is. */
  function FreedRest(m: Mem, q: int, p: int): Mem {
    if p <= q then m
    else m[p + HEAD := Head(RECORD_SIZE, true, false)][q + HEAD := Head(p - q, false, true)][p := Data(p - q)]
  }

  lemma OpenWords(m: Mem, m': Mem, s: Space, ms: int, tbase: int, tsize: nat)
    requires HeapOk(m, s, ms) && RegionsOk(s.segs, TopSeg(s), s.regs) && NewRegion(s.regs, tbase, tsize)
    requires RecordPlace(s) != s.top
    requires OpenedIn(m, m', tbase, tsize, RecordPlace(s), TopEndOf(s) + TOP_FOOT_SIZE)
    ensures s.top + HEAD in m' && RecordPlace(s) in m' && RecordPlace(s) - s.top == SizeOf(s, s.top) >= MIN_CHUNK_SIZE
  {
    hide HeapOk, Shape, RegionsOk, NewRegion;
    OpenReady(m, s, ms, tbase, tsize);
  }

  // ----- prepend_alloc -----

  /** What is known when `prepend_alloc` runs: the record of the segment has been changed already. */
  ghost predicate Prepending(m: Mspace, i: nat, tbase: int, tsize: nat, nb: nat)
    reads m
  {
    && RegionsOk(m.space.segs, TopSeg(m.space), m.space.regs) && Prependable(m.space, i, tbase, tsize, nb)
    && m.leastAddr <= tbase
    && var l := PrefixedSpace(m.space, i, tbase, nb).regs;
      ListOk(m.mem, m.space, m.ms, l) && Headed(l, m.space.recs, m.seg, m.segNext)
  }

  /** The end of `prepend_alloc` in each of its branches: the tags are written, and the new space holds. */
  lemma FrontDone(m: Mem, m': Mem, s: Space, ms: int, i: nat, tbase: int, tsize: nat, nb: nat, f: Sizing, h: Held,
      sm: Word32, tm: Word32)
    requires HeapOk(m, s, ms) && RegionsOk(s.segs, TopSeg(s), s.regs) && Prependable(s, i, tbase, tsize, nb)
    requires HasHead(m, tbase, nb, true, true) && Mapped(m, tbase, tbase + tsize)
    requires FrontTagged(m, m', s, s.regs[i].base, tbase + nb)
    requires BinnedOk(s, f, FrontOut(s, s.regs[i].base)) && BinsHold(m, f, ms, h, sm, tm)
    requires ListOk(m, s, ms, PrefixedSpace(s, i, tbase, nb).regs)
    ensures i < |s.regs| && s.regs[i].base in s.segs && tbase + nb < s.regs[i].base <= FrontEnd(s, s.regs[i].base)
    ensures var q := tbase + nb; var s' := FrontSpace(s, i, tbase, nb);
      && HeapOk(m', s', ms) && SegsOk(m', s', ms) && BinsHold(m', f, ms, h, sm, tm)
      && BinnedOk(s', f, if q == s'.top || q == s'.dv then {} else {q})
      && PayloadKept(m, m', Live(s)) && tbase !in Live(s) && Live(s') == Live(s)[tbase := nb]
      && s'.regs == PrefixedSpace(s, i, tbase, nb).regs && s'.recs == s.recs
      && FrontFields(s, s', s.regs[i].base, tbase, q)
  {
    hide HeapOk, Shape, RegionsOk, BinsHold, BinnedOk, PayloadKept, Live, NewRegion, Mapped, FrontTagged, Rewritten;
    hide ListOk;
    FrontFreed(m, m', s, ms, i, tbase, tsize, nb, f, h, sm, tm);
    ShapeOf(m, s, ms);
    FrontFacts(s, ms, i, tbase, tsize, nb);
    DvInside(s, ms);
    OldPlaces(s, ms, tbase, tsize);
  }

  /** Where `top` and `dv` are, how large the new free chunk is, and where the segments end. */
  ghost predicate FrontFields(s: Space, s': Space, f: int, tbase: int, q: int) {
    && s'.top == FrontTop(s, f, q) && s'.dv == FrontDv(s, f, q) && f in s.chunks
    && q in s'.chunks && !s'.chunks[q].cin && s'.chunks[q].size == FrontEnd(s, f) - q
    && s.top in s.chunks && s'.top in s'.chunks && (f != s.top ==> s'.chunks[s.top].size == s.chunks[s.top].size)
    && (s.dv != 0 && f != s.dv ==> s.dv in s.chunks && s.dv in s'.chunks && s'.chunks[s.dv].size == s.chunks[s.dv].size)
    && (forall g :: g in s'.segs ==>
          if g == tbase then f in s.segs && s'.segs[g] == s.segs[f] else g in s.segs && s'.segs[g] == s.segs[g])
  }

  /** The new chunk in front stands for itself; the rest of the new region joins `top`. */
  method PrependToTop(m: Mspace, q: int, qsize: nat, ghost i: nat, ghost tbase: int, ghost nb: nat)
    requires m.Parts({}) && Prepending(m, i, tbase, nb + qsize, nb) && q == tbase + nb && m.space.regs[i].base == m.top
    requires HasHead(m.mem, tbase, nb, true, true) && Mapped(m.mem, tbase, q + qsize)
    modifies m`mem, m`top, m`topsize, m`space
    ensures m.Valid() && PayloadKept(old(m.mem), m.mem, old(Live(m.space)))
    ensures tbase !in old(Live(m.space)) && Live(m.space) == old(Live(m.space))[tbase := nb]
    ensures i < |old(m.space).regs| && tbase < old(m.space).regs[i].base
    ensures m.top == q
    ensures m.space.regs == PrefixedRegs(old(m.space).regs, i, tbase)
  {
    hide BinsHold, HeapOk, BinnedOk, Live, PayloadKept, RegionsOk, Shape, Mapped, FrontTagged, FrontSpace, FrontEnd;
    hide TopSeg, Prependable, ListOk, Headed, BinsAbove, Granular, PrefixedSpace, NewRegion;
    ghost var m1, s, tsize := m.mem, m.space, nb + qsize;
    TopAndFront(m1, s, m.ms, i, tbase, tsize, nb);
    var size := m.topsize + qsize;
    m.topsize := size;
    m.top := q;
    m.mem := Store(m.mem, q + HEAD, Head(size, false, true));
    TopWritten(m1, m.mem, s, m.ms, i, tbase, tsize, nb);
    FrontDone(m1, m.mem, s, m.ms, i, tbase, tsize, nb, m.binned, m.held, m.smallmap, m.treemap);
    FrontRegs(s, i, tbase, nb);
    m.space := FrontSpace(s, i, tbase, nb);
  }

  lemma TopAndFront(m: Mem, s: Space, ms: int, i: nat, tbase: int, tsize: nat, nb: nat)
    requires HeapOk(m, s, ms) && RegionsOk(s.segs, TopSeg(s), s.regs) && Prependable(s, i, tbase, tsize, nb)
    requires Mapped(m, tbase, tbase + tsize)
    requires s.regs[i].base == s.top
    ensures s.top in s.chunks && s.top != s.dv && FrontOut(s, s.top) == {} && FrontEnd(s, s.top) == TopEndOf(s)
    ensures tbase + nb + HEAD in m && s.top in s.segs && tbase + nb < s.top < TopEndOf(s) && tbase + tsize == s.top
  {
    hide HeapOk, Shape, RegionsOk, NewRegion, Mapped;
    ShapeOf(m, s, ms);
    TopFacts(m, s, ms);
    TopIsNotDv(m, s, ms);
    MappedAt(m, tbase, tbase + tsize, tbase + nb + HEAD);
  }

  lemma TopWritten(m: Mem, m': Mem, s: Space, ms: int, i: nat, tbase: int, tsize: nat, nb: nat)
    requires HeapOk(m, s, ms) && RegionsOk(s.segs, TopSeg(s), s.regs) && Prependable(s, i, tbase, tsize, nb)
    requires Mapped(m, tbase, tbase + tsize)
    requires s.regs[i].base == s.top && m' == m[tbase + nb + HEAD := Head(TopEndOf(s) - (tbase + nb), false, true)]
    ensures FrontTagged(m, m', s, s.regs[i].base, tbase + nb)
  {
    hide HeapOk, Shape, RegionsOk, NewRegion;
    TopAndFront(m, s, ms, i, tbase, tsize, nb);
    TopFacts(m, s, ms);
  }

  /** The rest of the new region joins `dv`. */
  method PrependToDv(m: Mspace, q: int, qsize: nat, ghost i: nat, ghost tbase: int, ghost nb: nat)
    requires m.Parts({}) && Prepending(m, i, tbase, nb + qsize, nb) && q == tbase + nb && m.space.regs[i].base == m.dv
    requires m.dv != 0
    requires HasHead(m.mem, tbase, nb, true, true) && Mapped(m.mem, tbase, q + qsize)
    modifies m`mem, m`dv, m`dvsize, m`space
    ensures m.Valid() && PayloadKept(old(m.mem), m.mem, old(Live(m.space)))
    ensures tbase !in old(Live(m.space)) && Live(m.space) == old(Live(m.space))[tbase := nb]
    ensures i < |old(m.space).regs| && tbase < old(m.space).regs[i].base
    ensures m.dv == q
    ensures m.space.regs == PrefixedRegs(old(m.space).regs, i, tbase)
  {
    hide BinsHold, HeapOk, BinnedOk, Live, PayloadKept, RegionsOk, Shape, Mapped, FrontTagged, FrontSpace, FrontEnd;
    hide TopSeg, Prependable, ListOk, Headed, BinsAbove, Granular, PrefixedSpace, NewRegion;
    ghost var m1, s, tsize := m.mem, m.space, nb + qsize;
    DvAndFront(m1, s, m.ms, i, tbase, tsize, nb);
    var size := m.dvsize + qsize;
    m.dvsize := size;
    m.dv := q;
    m.mem := Store(m.mem, q + HEAD, Head(size, false, true));
    m.mem := Store(m.mem, q + size, Data(size));
    DvWritten(m1, m.mem, s, m.ms, i, tbase, tsize, nb);
    FrontDone(m1, m.mem, s, m.ms, i, tbase, tsize, nb, m.binned, m.held, m.smallmap, m.treemap);
    FrontRegs(s, i, tbase, nb);
    m.space := FrontSpace(s, i, tbase, nb);
  }

  lemma DvAndFront(m: Mem, s: Space, ms: int, i: nat, tbase: int, tsize: nat, nb: nat)
    requires HeapOk(m, s, ms) && RegionsOk(s.segs, TopSeg(s), s.regs) && Prependable(s, i, tbase, tsize, nb)
    requires Mapped(m, tbase, tbase + tsize)
    requires s.regs[i].base == s.dv != 0
    ensures s.dv in s.chunks && s.top != s.dv && FrontOut(s, s.dv) == {} && FrontEnd(s, s.dv) == NextOf(s, s.dv)
    ensures tbase + nb + HEAD in m && NextOf(s, s.dv) in m && s.dv in s.segs && tbase + nb < s.dv < NextOf(s, s.dv)
    ensures tbase + tsize == s.dv && tbase + nb > 0
  {
    hide HeapOk, Shape, RegionsOk, NewRegion, Mapped;
    PrefixAligned(s.regs, tbase, tsize);
    DvIsFree(m, s, ms);
    FreeChunk(m, s, ms, s.dv);
    MappedAt(m, tbase, tbase + tsize, tbase + nb + HEAD);
    MappedAt(m, s.dv, NextOf(s, s.dv) + 16, NextOf(s, s.dv));
  }

  lemma DvWritten(m: Mem, m': Mem, s: Space, ms: int, i: nat, tbase: int, tsize: nat, nb: nat)
    requires HeapOk(m, s, ms) && RegionsOk(s.segs, TopSeg(s), s.regs) && Prependable(s, i, tbase, tsize, nb)
    requires Mapped(m, tbase, tbase + tsize)
    requires s.regs[i].base == s.dv != 0
    requires var q, e := tbase + nb, NextOf(s, s.dv);
      e > q && m' == m[q + HEAD := Head(e - q, false, true)][e := Data(e - q)]
    ensures FrontTagged(m, m', s, s.regs[i].base, tbase + nb)
  {
    hide HeapOk, Shape, RegionsOk, NewRegion;
    DvAndFront(m, s, ms, i, tbase, tsize, nb);
    FreeFacts(m, s, ms, s.dv);
  }

  /** The rest of the new region becomes a free chunk, together with the old first chunk when that is free, and goes
      into a bin. */
  method PrependToBin(m: Mspace, q: int, qsize0: nat, oldfirst0: int, ghost i: nat, ghost tbase: int, ghost nb: nat)
    requires m.Parts({}) && Prepending(m, i, tbase, nb + qsize0, nb) && q == tbase + nb
    requires m.space.regs[i].base == oldfirst0 == q + qsize0
    requires oldfirst0 != m.top && oldfirst0 != m.dv
    requires HasHead(m.mem, tbase, nb, true, true) && Mapped(m.mem, tbase, q + qsize0)
    modifies m`mem, m`smallmap, m`treemap, m`binned, m`held, m`space
    ensures m.Valid() && PayloadKept(old(m.mem), m.mem, old(Live(m.space)))
    ensures tbase !in old(Live(m.space)) && Live(m.space) == old(Live(m.space))[tbase := nb]
    ensures i < |old(m.space).regs| && tbase < old(m.space).regs[i].base
    ensures m.space.regs == PrefixedRegs(old(m.space).regs, i, tbase)
  {
    hide BinsHold, HeapOk, BinnedOk, Live, PayloadKept, RegionsOk, Shape, NewRegion, OnlyBins, Mapped, FrontSpace;
    hide TopSeg, Prependable, ListOk, Headed, BinsAbove, Granular, PrefixedSpace, NewRegion;
    ghost var m0, s, tsize := m.mem, m.space, nb + qsize0;
    var oldfirst, qsize := oldfirst0, qsize0;
    PrependableBasics(s, i, tbase, tsize, nb);
    ghost var l := PrefixedSpace(s, i, tbase, nb).regs;
    NothingWritten(m0, s);
    FrontRead(m0, s, m.ms, i, tbase, tsize, nb, m.binned);
    var h := LoadHead(m.mem, oldfirst);
    if !h.cin {
      var nsize := h.size;
      ghost var f := m.binned;
      UnlinkListed(m, oldfirst, nsize, l);
      NewWordsKept(m0, m.mem, s, m.ms, i, tbase, tsize, nb, f);
      oldfirst := oldfirst + nsize;
      qsize := qsize + nsize;
      assert {} + {oldfirst0} == {oldfirst0};
    }
    ghost var m1 := m.mem;
    FreeFront(m, q, qsize, oldfirst, i, tbase, tsize, nb);
    ghost var m2 := m.mem;
    KeptTrans(m0, m1, m2, Live(s));
    m.InsertChunk(q, qsize);
    KeptPart(m2, m.mem, Live(m.space), Live(s));
    KeptTrans(m0, m2, m.mem, Live(s));
  }

  /** `unlink_chunk`, while the records are those of the list `l`. */
  method UnlinkListed(m: Mspace, p: int, s: nat, ghost l: seq<Region>)
    requires m.Parts({}) && ListOk(m.mem, m.space, m.ms, l) && p in m.binned && m.binned[p] == s
    modifies m`mem, m`smallmap, m`treemap, m`binned, m`held
    ensures m.Parts({p}) && ListOk(m.mem, m.space, m.ms, l)
    ensures OnlyBins(old(m.mem), m.mem, old(m.binned), m.ms) && PayloadKept(old(m.mem), m.mem, Live(m.space))
  {
    hide BinsHold, HeapOk, OnlyBins, Live, PayloadKept, ListOk, Headed, RegionsOk, SegsAbove;
    ghost var f := m.binned;
    if IsSmall(s) { m.UnlinkSmallChunk(p, s); } else { m.UnlinkLargeChunk(p); }
    BinnedFree(m.space, f, {});
    HeapUnderBins(old(m.mem), m.mem, m.space, m.ms, f);
    RecordsUnderBins(old(m.mem), m.mem, m.space, m.ms, f, l);
    BinnedWithout(m.space, f, {}, p);
    assert {} + {p} == {p};
  }

  lemma PrependableBasics(s: Space, i: nat, tbase: int, tsize: nat, nb: nat)
    requires Prependable(s, i, tbase, tsize, nb)
    ensures i < |s.regs| && s.regs[i].base in s.segs && tbase + nb < s.regs[i].base
  {}

  /** What is read of the old first chunk. */
  lemma FrontRead(m: Mem, s: Space, ms: int, i: nat, tbase: int, tsize: nat, nb: nat, f: Sizing)
    requires HeapOk(m, s, ms) && RegionsOk(s.segs, TopSeg(s), s.regs) && Prependable(s, i, tbase, tsize, nb)
    requires BinnedOk(s, f, {})
    requires s.regs[i].base != s.top && s.regs[i].base != s.dv
    ensures s.regs[i].base in s.chunks && s.regs[i].base in s.segs
    ensures HasHead(m, s.regs[i].base, SizeOf(s, s.regs[i].base), UsedAt(s, s.regs[i].base), true) && FreeOnes(s, f)
    ensures FreeAt(s, s.regs[i].base) ==> s.regs[i].base in f && f[s.regs[i].base] == SizeOf(s, s.regs[i].base)
    ensures FrontEnd(s, s.regs[i].base) ==
      s.regs[i].base + (if UsedAt(s, s.regs[i].base) then 0 else SizeOf(s, s.regs[i].base))
    ensures FrontOut(s, s.regs[i].base) == if UsedAt(s, s.regs[i].base) then {} else {s.regs[i].base}
  {
    hide HeapOk, Shape, RegionsOk, NewRegion;
    ShapeOf(m, s, ms);
    FrontFacts(s, ms, i, tbase, tsize, nb);
    FreeChunk(m, s, ms, s.regs[i].base);
    BinnedFree(s, f, {});
    if FreeAt(s, s.regs[i].base) { FreeIsBinned(s, f, s.regs[i].base); }
  }

  /** `set_free_with_pinuse` on the rest of the new region, when the old first chunk is in no bin. */
  method FreeFront(m: Mspace, q: int, qsize: nat, oldfirst: int, ghost i: nat, ghost tbase: int, ghost tsize: nat,
      ghost nb: nat)
    requires Prepending(m, i, tbase, tsize, nb) && m.Parts(FrontOut(m.space, m.space.regs[i].base)) && q == tbase + nb
    requires oldfirst == FrontEnd(m.space, m.space.regs[i].base) == q + qsize && m.space.regs[i].base != m.top
    requires m.space.regs[i].base != m.dv
    requires HasHead(m.mem, tbase, nb, true, true) && Mapped(m.mem, tbase, tbase + tsize)
    modifies m`mem, m`space
    ensures m.Holding({q}) && PayloadKept(old(m.mem), m.mem, old(Live(m.space)))
    ensures q in m.space.chunks && !m.space.chunks[q].cin && q != m.top && q != m.dv && m.space.chunks[q].size == qsize
    ensures tbase !in old(Live(m.space)) && Live(m.space) == old(Live(m.space))[tbase := nb]
    ensures i < |old(m.space).regs| && tbase < old(m.space).regs[i].base
    ensures m.space.regs == PrefixedRegs(old(m.space).regs, i, tbase)
  {
    hide BinsHold, HeapOk, BinnedOk, Live, PayloadKept, RegionsOk, Shape, NewRegion, Mapped, FrontTagged, FrontSpace;
    hide FrontEnd, FrontOut, TopSeg, Prependable, ListOk, Headed, BinsAbove, Granular, PrefixedSpace, NewRegion;
    ghost var m1, s := m.mem, m.space;
    FrontReady(m1, s, m.ms, i, tbase, tsize, nb);
    SetFreeWithPinuse(m, q, qsize, oldfirst);
    FrontWritten(m1, m.mem, s, m.ms, i, tbase, tsize, nb);
    FrontDone(m1, m.mem, s, m.ms, i, tbase, tsize, nb, m.binned, m.held, m.smallmap, m.treemap);
    FrontRegs(s, i, tbase, nb);
    m.space := FrontSpace(s, i, tbase, nb);
  }

  /** What the bins write lies outside the new region. */
  lemma NewWordsKept(m: Mem, m': Mem, s: Space, ms: int, i: nat, tbase: int, tsize: nat, nb: nat, f: Sizing)
    requires HeapOk(m, s, ms) && RegionsOk(s.segs, TopSeg(s), s.regs) && Prependable(s, i, tbase, tsize, nb)
    requires FreeOnes(s, f) && OnlyBins(m, m', f, ms)
    requires HasHead(m, tbase, nb, true, true) && Mapped(m, tbase, tbase + tsize)
    ensures HasHead(m', tbase, nb, true, true) && Mapped(m', tbase, tbase + tsize)
  {
    hide HeapOk, Shape, RegionsOk, NewRegion, NextFits;
    ShapeOf(m, s, ms);
    if BinWord(f, ms, tbase + HEAD) {
      if InHeaders(ms, tbase + HEAD) {
        OwnState(s, ms);
        ChunkPlace(s, ms, tbase, tsize, ms - 16);
      } else {
        var p: int :| p in f && p + FD <= tbase + HEAD < p + f[p];
        ChunkPlace(s, ms, tbase, tsize, p);
      }
    }
  }

  /** The words that are written last are there. */
  lemma FrontReady(m: Mem, s: Space, ms: int, i: nat, tbase: int, tsize: nat, nb: nat)
    requires HeapOk(m, s, ms) && RegionsOk(s.segs, TopSeg(s), s.regs) && Prependable(s, i, tbase, tsize, nb)
    requires Mapped(m, tbase, tbase + tsize)
    requires s.regs[i].base != s.top
    ensures var e, q := FrontEnd(s, s.regs[i].base), tbase + nb;
      && q > 0 && q != s.dv && q != s.top && s.regs[i].base in s.segs && q + HEAD in m && q + 16 <= e && e in s.chunks
      && e in m && HasHead(m, e, SizeOf(s, e), UsedAt(s, e), s.chunks[e].pin)
  {
    hide HeapOk, Shape, RegionsOk, NewRegion;
    ShapeOf(m, s, ms);
    FrontFacts(s, ms, i, tbase, tsize, nb);
    FreeChunk(m, s, ms, s.regs[i].base);
    if FreeAt(s, s.regs[i].base) { FreeFacts(m, s, ms, s.regs[i].base); }
    FreeChunk(m, s, ms, FrontEnd(s, s.regs[i].base));
  }

  lemma FrontWritten(m: Mem, m': Mem, s: Space, ms: int, i: nat, tbase: int, tsize: nat, nb: nat)
    requires HeapOk(m, s, ms) && RegionsOk(s.segs, TopSeg(s), s.regs) && Prependable(s, i, tbase, tsize, nb)
    requires Mapped(m, tbase, tbase + tsize)
    requires s.regs[i].base != s.top
    requires var e, q := FrontEnd(s, s.regs[i].base), tbase + nb; 
      && e in s.chunks && q < e
      && m' ==
         m[e + HEAD := Head(SizeOf(s, e), UsedAt(s, e), false)][q + HEAD := Head(e - q, false, true)][e := Data(e - q)]
    ensures FrontTagged(m, m', s, s.regs[i].base, tbase + nb)
  {
    hide HeapOk, Shape, RegionsOk, NewRegion;
    FrontReady(m, s, ms, i, tbase, tsize, nb);
  }

  /** `prepend_alloc`: the request is served from the front of the new region; the rest joins the segment behind it. */
  method PrependAlloc(m: Mspace, tbase: int, oldbase: int, nb: nat, ghost i: nat, ghost tsize: nat) returns (at: int)
    requires m.Parts({}) && Prepending(m, i, tbase, tsize, nb) && oldbase == m.space.regs[i].base
    requires Mapped(m.mem, tbase, tbase + tsize)
    modifies m`mem, m`smallmap, m`treemap, m`dv, m`dvsize, m`top, m`topsize, m`binned, m`held, m`space
    ensures m.Valid() && PayloadKept(old(m.mem), m.mem, old(Live(m.space)))
    ensures at == tbase + 16 && tbase !in old(Live(m.space)) && Live(m.space) == old(Live(m.space))[tbase := nb]
    ensures i < |old(m.space).regs| && tbase < old(m.space).regs[i].base
    ensures m.top == FrontTop(old(m.space), oldbase, tbase + nb) && m.dv == FrontDv(old(m.space), oldbase, tbase + nb)
    ensures m.space.regs == PrefixedRegs(old(m.space).regs, i, tbase)
  {
    hide BinsHold, HeapOk, BinnedOk, Live, PayloadKept, RegionsOk, Shape, Mapped, TopSeg, ListOk, Headed, BinsAbove;
    hide Granular, PrefixedSpace, NewRegion;
    ghost var m0, s := m.mem, m.space;
    var p := tbase;
    var oldfirst := oldbase;
    var psize := oldfirst - p;
    var q := p + nb;
    var qsize := psize - nb;
    MappedAt(m0, tbase, tbase + tsize, p + HEAD);
    m.mem := Store(m.mem, p + HEAD, Head(nb, true, true));
    FirstWritten(m0, m.mem, tbase, tsize, nb);
    BinnedFree(s, m.binned, {});
    Outside(m0, m.mem, s, m.ms, tbase, tsize, m.binned, m.held, m.smallmap, m.treemap);
    ghost var m1 := m.mem;
    OutsideList(m0, m1, s, m.ms, tbase, tsize, PrefixedSpace(s, i, tbase, nb).regs);
    assert oldfirst > q && qsize >= MIN_CHUNK_SIZE;
    FirstPlace(m1, s, m.ms, i);
    NoNullChunk(m1, s, m.ms);
    if oldfirst == m.top {
      PrependToTop(m, q, qsize, i, tbase, nb);
    } else if oldfirst == m.dv {
      PrependToDv(m, q, qsize, i, tbase, nb);
    } else {
      PrependToBin(m, q, qsize, oldfirst, i, tbase, nb);
    }
    KeptTrans(m0, m1, m.mem, Live(s));
    at := p + 16;
  }

  lemma FirstWritten(m: Mem, m': Mem, tbase: int, tsize: nat, nb: nat)
    requires Mapped(m, tbase, tbase + tsize) && tsize >= 16 && m' == m[tbase + HEAD := Head(nb, true, true)]
    ensures KeptOutside(m, m', tbase, tsize) && Mapped(m', tbase, tbase + tsize) && HasHead(m', tbase, nb, true, true)
  {}

  lemma FirstPlace(m: Mem, s: Space, ms: int, i: nat)
    requires HeapOk(m, s, ms) && i < |s.regs| && s.regs[i].base in s.segs
    ensures s.regs[i].base > 0 && s.regs[i].base in s.chunks && s.chunks[s.regs[i].base].pin
  {
    hide HeapOk, Shape;
    ShapeOf(m, s, ms);
    SegmentOf(s, ms, s.regs[i].base);
  }

  // ----- sys_alloc -----

  /** The record of the first region in the list that ends at `a`, or null. */
  method RegionEndingAt(m: Mspace, a: int) returns (sp: int, r: Region, ghost i: nat)
    requires m.Valid()
    ensures i <= |m.space.regs| && (sp == 0 <==> i == |m.space.regs|)
    ensures i < |m.space.regs| ==> sp == RecordAt(m.space, m.ms, i) && r == m.space.regs[i] && EndOf(r) == a
    ensures forall j :: 0 <= j < i ==> EndOf(m.space.regs[j]) != a
  {
    hide BinsHold, HeapOk, BinnedOk, ListOk, SegsAbove, BinsAbove, Headed, EndOf;
    ListLength(m.mem, m.space, m.ms, m.space.regs);
    StateInMemory(m.mem, m.space, m.ms);
    sp, i, r := m.ms + SEG, 0, m.seg;
    while sp != 0
      invariant i <= |m.space.regs| && (sp == 0 <==> i == |m.space.regs|)
      invariant sp != 0 ==> sp == RecordAt(m.space, m.ms, i)
      invariant forall j :: 0 <= j < i ==> EndOf(m.space.regs[j]) != a
      decreases |m.space.regs| - i
    {
      var next: int;
      r, next := m.ReadRecord(sp, i);
      if EndOf(r) == a { return; }
      sp, i := next, i + 1;
    }
  }

  /** The record of the first region in the list that starts at `a`, or null. */
  method RegionStartingAt(m: Mspace, a: int) returns (sp: int, r: Region, ghost i: nat)
    requires m.Valid()
    ensures i <= |m.space.regs| && (sp == 0 <==> i == |m.space.regs|)
    ensures i < |m.space.regs| ==> sp == RecordAt(m.space, m.ms, i) && r == m.space.regs[i] && r.base == a
    ensures forall j :: 0 <= j < i ==> m.space.regs[j].base != a
  {
    hide BinsHold, HeapOk, BinnedOk, ListOk, SegsAbove, BinsAbove, Headed;
    ListLength(m.mem, m.space, m.ms, m.space.regs);
    StateInMemory(m.mem, m.space, m.ms);
    sp, i, r := m.ms + SEG, 0, m.seg;
    while sp != 0
      invariant i <= |m.space.regs| && (sp == 0 <==> i == |m.space.regs|)
      invariant sp != 0 ==> sp == RecordAt(m.space, m.ms, i)
      invariant forall j :: 0 <= j < i ==> m.space.regs[j].base != a
      decreases |m.space.regs| - i
    {
      var next: int;
      r, next := m.ReadRecord(sp, i);
      if r.base == a { return; }
      sp, i := next, i + 1;
    }
  }

  /** The part of `sys_alloc` that has got a region: it serves the request from it, always. */
  method UseRegion(m: Mspace, tbase: int, tsize: nat, nb: nat) returns (at: int)
    requires m.Valid() && Obtained(m, tbase, tsize) && MIN_CHUNK_SIZE <= nb && nb % 16 == 0 && nb + PADDING <= tsize
    modifies m
    ensures m.Valid() && PayloadKept(old(m.mem), m.mem, old(Live(m.space)))
    ensures at != 0 && m.Gave(nb, at - 16) && m.asked == old(m.asked)
    ensures Grown(old(m.Seen()), tbase, tsize, nb, at, m.Seen())
  {
    hide BinsHold, HeapOk, BinnedOk, Live, PayloadKept, RegionsOk, Mapped, TopSeg, SegmentHolds, NewRegion, AddedSpace;
    hide AppendedSpace, ListOk, SegsAbove, BinsAbove, Headed, Prependable, Precedes, Preceded, Grown, SameRegions;
    hide FrontTop, FrontDv, EndOf, SegsOk, RecordAt, RecordsPlaced, Mspace.Parts;
    ghost var m0, s, v := m.mem, m.space, m.Seen();
    m.ValidFacts();
    SegsRegions(m0, s, m.ms);
    RegionFacts(m0, s, m.ms, tbase, tsize);
    var sp, r, i := RegionEndingAt(m, tbase);
    if sp != 0 && !r.pinned && SegmentHolds(r, m.top) {
      assert Continues(s.regs, tbase);
      Append(m, sp, tbase, tsize);
    } else {
      assert !Continues(s.regs, tbase);
      LowerLeast(m, tbase);
      sp, r, i := RegionStartingAt(m, tbase + tsize);
      if sp != 0 && !r.pinned {
        at := PrependTo(m, sp, r, tbase, tsize, nb, i);
        m.ValidFacts();
        GrownAtFront(v, tbase, tsize, nb, i, m.Seen());
        return;
      }
      NonePrecedes(s.regs, tbase + tsize, i);
      AddSegment(m, tbase, tsize);
    }
    ghost var m1, s1 := m.mem, m.space;
    m.ValidFacts();
    assert nb < m.topsize;
    at := m.MallocFromTop(nb);
    KeptTrans(m0, m1, m.mem, Live(s));
    m.ValidFacts();
    GrownAtTop(v, tbase, tsize, nb, s1, m.Seen());
  }

  lemma NonePrecedes(r: seq<Region>, end: int, i: nat)
    requires i < |r| ==> r[i].base == end && r[i].pinned
    requires i <= |r| && forall j :: 0 <= j < i ==> r[j].base != end
    ensures !Preceded(r, end)
  {}

  lemma GrownAtFront(v: View, tbase: int, tsize: nat, nb: nat, i: nat, v': View)
    requires var s, s' := v.space, v'.space;
      && i < |s.regs| && s.regs[i].base == tbase + tsize && !s.regs[i].pinned && tbase > 0
      && (forall j :: 0 <= j < i ==> s.regs[j].base != tbase + tsize) && !Continues(s.regs, tbase)
      && tbase !in Live(s) && Live(s') == Live(s)[tbase := nb]
      && s'.top == FrontTop(s, tbase + tsize, tbase + nb) && s'.dv == FrontDv(s, tbase + tsize, tbase + nb)
      && s'.regs == s.regs[i := Region(tbase, s.regs[i].size + tsize, false)]
    requires v' == v.(space := v'.space)
    ensures Grown(v, tbase, tsize, nb, tbase + 16, v')
  {
    hide Live;
    assert Precedes(v.space.regs, tbase + tsize, i);
  }

  lemma GrownAtTop(v: View, tbase: int, tsize: nat, nb: nat, s1: Space, v': View)
    requires var s := v.space;
      && s.regs != [] && s.top in s.chunks && tsize > TOP_FOOT_SIZE && tbase > 0 && s.top > 0
      && if Continues(s.regs, tbase) then s1 == AppendedSpace(s, tsize)
         else !Preceded(s.regs, tbase + tsize) && s1 == AddedSpace(s, tbase, tsize)
    requires var s, s' := v.space, v'.space;
      && SameRegions(s1, s') && s'.dv == s1.dv && s'.top == s1.top + nb
      && s1.top !in Live(s) && Live(s') == Live(s)[s1.top := nb]
    requires v' == v.(space := v'.space, trimCheck := DEFAULT_TRIM_THRESHOLD)
    ensures Grown(v, tbase, tsize, nb, s1.top + 16, v')
  {
    hide Live, Preceded;
  }

  lemma GrownFootprint(v: View, tbase: int, tsize: nat, nb: nat, at: int, v': View)
    requires Grown(v, tbase, tsize, nb, at, v')
    ensures Footprint(v'.space.regs) == Footprint(v.space.regs) + tsize
  {
    hide Live;
    var r, r' := v.space.regs, v'.space.regs;
    if Continues(r, tbase) {
      FootprintSet(r, 0, Region(r[0].base, r[0].size + tsize, false));
    } else if Preceded(r, tbase + tsize) {
      var i :| Precedes(r, tbase + tsize, i);
      FootprintSet(r, i, Region(tbase, r[i].size + tsize, false));
    } else {
      assert r'[1..] == r;
    }
  }

  method LowerLeast(m: Mspace, tbase: int)
    requires m.Valid()
    modifies m`leastAddr
    ensures m.Valid() && m.leastAddr == if tbase < old(m.leastAddr) then tbase else old(m.leastAddr)
  {
    hide BinsHold, HeapOk, BinnedOk, ListOk, Headed;
    if tbase < m.leastAddr {
      m.leastAddr := tbase;
    }
  }

  /** The record now describes the region with the new one in front, and `prepend_alloc` does the rest. */
  method PrependTo(m: Mspace, sp: int, r: Region, tbase: int, tsize: nat, nb: nat, ghost i: nat) returns (at: int)
    requires m.Valid() && Obtained(m, tbase, tsize) && MIN_CHUNK_SIZE <= nb && nb % 16 == 0 && nb + PADDING <= tsize
    requires i < |m.space.regs| && sp == RecordAt(m.space, m.ms, i) && r == m.space.regs[i] && r.base == tbase + tsize
    requires m.leastAddr <= tbase
    modifies m`mem, m`seg, m`smallmap, m`treemap, m`dv, m`dvsize, m`top, m`topsize, m`binned, m`held, m`space
    ensures m.Valid() && PayloadKept(old(m.mem), m.mem, old(Live(m.space)))
    ensures at == tbase + 16 != 0 && tbase !in old(Live(m.space)) && Live(m.space) == old(Live(m.space))[tbase := nb]
    ensures m.top == FrontTop(old(m.space), r.base, tbase + nb) && m.dv == FrontDv(old(m.space), r.base, tbase + nb)
    ensures m.space.regs == old(m.space.regs)[i := Region(tbase, r.size + tsize, r.pinned)]
  {
    hide BinsHold, HeapOk, BinnedOk, Live, PayloadKept, RegionsOk, TopSeg, ListOk, SegsAbove, BinsAbove, Headed;
    ghost var m0, s := m.mem, m.space;
    SegsRegions(m0, s, m.ms);
    RecordThere(m0, s, m.ms, i);
    var oldbase := r.base;
    PrependedRegion(s, i, tbase, tsize, nb);
    m.SetRecord(sp, tbase, r.size + tsize, i);
    MappedStill(m0, m.mem, tbase, tbase + tsize);
    ghost var m1 := m.mem;
    at := PrependAlloc(m, tbase, oldbase, nb, i, tsize);
    KeptTrans(m0, m1, m.mem, Live(s));
  }

  lemma MappedStill(m: Mem, m': Mem, lo: int, hi: int)
    requires Mapped(m, lo, hi) && m.Keys <= m'.Keys
    ensures Mapped(m', lo, hi)
  {}

  lemma PrependedRegion(s: Space, i: nat, tbase: int, tsize: nat, nb: nat)
    requires Prependable(s, i, tbase, tsize, nb)
    ensures PrefixedSpace(s, i, tbase, nb).regs
      == s.regs[i := Region(tbase, s.regs[i].size + tsize, s.regs[i].pinned)]
    ensures tbase + s.regs[i].size + tsize == EndOf(s.regs[i])
  {}

  lemma RegionFacts(m: Mem, s: Space, ms: int, tbase: int, tsize: nat)
    requires HeapOk(m, s, ms) && RegionsOk(s.segs, TopSeg(s), s.regs) && NewRegion(s.regs, tbase, tsize)
    ensures s.regs != [] && SegmentHolds(s.regs[0], s.top)
    ensures forall i :: 0 < i < |s.regs| ==> !SegmentHolds(s.regs[i], s.top)
    ensures tbase > 0 && s.top > 0 && s.top in s.chunks
  {
    hide HeapOk, Shape, RegionsOk, Granular;
    TopIsNotDv(m, s, ms);
    ShapeOf(m, s, ms);
    TopHeld(s, ms);
    DvInside(s, ms);
  }

  lemma RecordThere(m: Mem, s: Space, ms: int, j: nat)
    requires HeapOk(m, s, ms) && RegionsOk(s.segs, TopSeg(s), s.regs) && j < |s.regs|
    ensures s.regs[j].base in s.segs && s.top in s.chunks
  {
    hide HeapOk, Shape, Granular;
    ShapeOf(m, s, ms);
    DvInside(s, ms);
    assert RegionOk(s.segs, s.regs[j], 32);
  }

  /** `sys_alloc`: it fails exactly when the size to ask for wraps around or the system does not grant it; then nothing
      has changed. */
  method SysAlloc(m: Mspace, nb: nat) returns (at: int)
    requires m.Valid() && MIN_CHUNK_SIZE <= nb < TWO64 && (nb % 16 == 0 || nb == MAX_SIZE_T)
    modifies m
    ensures m.Valid() && PayloadKept(old(m.mem), m.mem, old(Live(m.space)))
    ensures SysAllocDoes(m.answers, old(m.Seen()), nb, at, m.Seen())
    ensures at == 0 <==> TooLarge(nb) || !Granted(m.answers, old(m.asked), old(m.space).regs, AskedSize(nb))
    ensures at == 0 ==> m.StateKept()
    ensures m.asked == if TooLarge(nb) then old(m.asked) else old(m.asked) + 1
    ensures at != 0 ==> Footprint(m.space.regs) == Footprint(old(m.space.regs)) + AskedSize(nb)
    ensures at != 0 ==> m.Gave(nb, at - 16)
  {
    hide BinsHold, HeapOk, BinnedOk, Live, PayloadKept, RegionsOk, Mapped, TopSeg, NewRegion, AskedSize, ListOk;
    hide SegsAbove, BinsAbove, Headed, Grant, Granted, Grown, Footprint;
    at := 0;
    NothingWritten(m.mem, m.space);
    var asize := AskedSize(nb);
    AskedEnough(nb);
    if asize <= nb { return; }
    var mapped, tbase, words := SystemMap(m, asize);
    if mapped {
      ghost var m0, l := m.mem, Live(m.space);
      Obtain(m, tbase, asize, words);
      ghost var m1, v1 := m.mem, m.Seen();
      at := UseRegion(m, tbase, asize, nb);
      GrownFootprint(v1, tbase, asize, nb, at, m.Seen());
      KeptTrans(m0, m1, m.mem, l);
    }
  }

  /** `mspace_malloc` as a whole: when nothing that is free serves the request, and only then, the system is asked for
      more memory. */
  method Malloc(m: Mspace, bytes: nat) returns (at: int)
    requires m.Valid() && bytes < TWO64
    modifies m
    ensures m.Valid() && PayloadKept(old(m.mem), m.mem, old(Live(m.space)))
    ensures MallocDoes(m.answers, old(m.Seen()), NeedFor(bytes), at, m.Seen())
    ensures at == 0 <==> Fails(m.answers, old(m.Seen()), NeedFor(bytes))
    ensures at == 0 ==> m.StateKept()
    ensures m.asked >= old(m.asked) && (m.asked == old(m.asked) ==> m.SegmentsKept())
    ensures at != 0 ==> m.Gave(NeedFor(bytes), at - 16)
  {
    hide BinsHold, HeapOk, BinnedOk, Live, PayloadKept, RegionsOk, Mapped, TopSeg, NewRegion, AskedSize, NoFit, Grant;
    hide ListOk, SegsAbove, BinsAbove, Headed, Footprint, NothingFree, Taken, SysAllocDoes;
    at := m.Malloc(bytes);
    if at == 0 {
      at := SysAlloc(m, NeedFor(bytes));
    }
  }
}
