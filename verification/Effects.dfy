/** What the operations do to the chunks, the regions and the counters, and what they ask of the system. */
module Effects {
  import opened Words
  import opened Bins
  import opened Heap
  import opened HeapMemory
  import opened HeapEdits
  import opened Freeing
  import opened Regions
  import opened Records
  import opened Growing
  import opened Search
  import opened Shrinking
  import opened Tries

  const MAX_RELEASE_CHECK_RATE: nat := 4095
  const DEFAULT_TRIM_THRESHOLD: nat := 0x20_0000

  /** The heap, how many system calls there have been, `trim_check`, and `release_checks`. */
  datatype View = View(space: Space, asked: nat, trimCheck: nat, releaseChecks: nat)

  // ----- mspace_malloc, from what is free -----

  /** The padded request size that `mspace_malloc` works with. */
  function NeedFor(bytes: nat): (nb: nat)
    ensures MIN_CHUNK_SIZE <= nb && (bytes < MAX_REQUEST ==> nb % 16 == 0 && bytes + CHUNK_OVERHEAD <= nb)
  {
    if bytes < MAX_REQUEST then Request2Size(bytes) else MAX_SIZE_T
  }

  /** A free chunk that a bin holds. */
  predicate Shelved(s: Space, q: int) { FreeAt(s, q) && q != s.top && q != s.dv }

  /** No free chunk is large enough; `top` must keep something. */
  ghost predicate NothingFree(s: Space, nb: nat) {
    forall q :: FreeAt(s, q) ==> SizeOf(s, q) < nb || (q == s.top && SizeOf(s, q) == nb)
  }

  /** The free chunk that serves a request: a best fit from the bins, unless a small request finds no exact fit there
      and `dv` is large enough, or a large one finds none that is tighter than `dv`; `top` only when nothing else
      is large enough. */
  ghost predicate Serves(s: Space, nb: nat, p: int) {
    && FreeAt(s, p) && nb <= SizeOf(s, p)
    && if p == s.top then nb < SizeOf(s, p) && forall q :: FreeAt(s, q) && q != s.top ==> SizeOf(s, q) < nb
       else if p == s.dv then
         forall q :: Shelved(s, q) ==>
           if IsSmall(nb) then SizeOf(s, q) != nb else SizeOf(s, q) < nb || SizeOf(s, p) <= SizeOf(s, q)
       else
         && (forall q :: Shelved(s, q) && nb <= SizeOf(s, q) ==> SizeOf(s, p) <= SizeOf(s, q))
         && (FreeAt(s, s.dv) && nb <= SizeOf(s, s.dv) ==>
           if IsSmall(nb) then SizeOf(s, p) == nb else SizeOf(s, p) < SizeOf(s, s.dv))
  }

  /** How much of it the client gets. */
  function TakenFrom(s: Space, nb: nat, p: int): nat { if p == s.top then nb else TakenSize(SizeOf(s, p), nb) }

  /** What is left of `dv`, or of a chunk from the bins that has served a small request, is `dv` afterwards. */
  function DvTaken(s: Space, nb: nat, p: int): int {
    if p == s.top || (p != s.dv && !IsSmall(nb)) then s.dv
    else if nb + MIN_CHUNK_SIZE <= SizeOf(s, p) then p + nb
    else if p == s.dv then 0 else s.dv
  }

  /** What `dv` is once a chunk of size `s` has been taken from a small or a tree bin for a small request. */
  function LeftAsDv(dv: int, s: nat, nb: nat, p: int): int { if s < nb + MIN_CHUNK_SIZE then dv else p + nb }

  /** The segments, and the allocator's own chunks, are the same. */
  predicate SameRegions(s: Space, s': Space) {
    s'.segs == s.segs && s'.own == s.own && s'.regs == s.regs && s'.recs == s.recs
  }

  ghost predicate Taken(s: Space, nb: nat, p: int, s': Space) {
    && Serves(s, nb, p) && SameRegions(s, s') && Live(s') == Live(s)[p := TakenFrom(s, nb, p)] && p !in Live(s)
    && s'.dv == DvTaken(s, nb, p) && s'.top == if p == s.top then p + nb else s.top
  }

  // ----- the bins, `dv` and `top` in turn -----

  lemma TakenFits(s: Space, nb: nat, p: int)
    requires Serves(s, nb, p)
    ensures nb <= TakenFrom(s, nb, p) < nb + MIN_CHUNK_SIZE
  {}

  lemma ServesSomething(s: Space, nb: nat, p: int)
    requires Serves(s, nb, p)
    ensures !NothingFree(s, nb)
  {}

  lemma ServedByBins(m: Mem, s: Space, ms: int, f: Sizing, nb: nat, p: int)
    requires HeapOk(m, s, ms) && BinnedOk(s, f, {}) && BestFit(f, nb, p)
    requires s.dv != 0 && nb <= SizeOf(s, s.dv) ==> if IsSmall(nb) then f[p] == nb else f[p] < SizeOf(s, s.dv)
    ensures Serves(s, nb, p) && !NothingFree(s, nb) && f[p] == SizeOf(s, p) && p != s.top && p != s.dv
  {
    hide HeapOk;
    NoNullChunk(m, s, ms);
    assert FreeAt(s, p);
    forall q | Shelved(s, q) ensures q in f && f[q] == SizeOf(s, q) { FreeIsBinned(s, f, q); }
  }

  /** So a chunk from the bins has been taken as it should be. */
  lemma TookIs(m: Mem, s: Space, ms: int, f: Sizing, nb: nat, p: int, s': Space)
    requires HeapOk(m, s, ms) && BinnedOk(s, f, {}) && BestFit(f, nb, p)
    requires s.dv != 0 && nb <= SizeOf(s, s.dv) ==> if IsSmall(nb) then f[p] == nb else f[p] < SizeOf(s, s.dv)
    requires SameRegions(s, s') && s'.top == s.top && p !in Live(s) && Live(s') == Live(s)[p := TakenSize(f[p], nb)]
    requires s'.dv == if IsSmall(nb) then LeftAsDv(s.dv, f[p], nb, p) else s.dv
    ensures Taken(s, nb, p, s')
  {
    hide HeapOk, Serves, Live, BinnedOk, BestFit;
    ServedByBins(m, s, ms, f, nb, p);
  }

  lemma NoNullChunk(m: Mem, s: Space, ms: int)
    requires HeapOk(m, s, ms)
    ensures 0 !in s.chunks && FreeAt(s, s.top) && s.top != s.dv && (s.dv != 0 ==> FreeAt(s, s.dv))
  {
    hide HeapOk, Shape;
    if 0 in s.chunks { FreeChunk(m, s, ms, 0); }
    TopFacts(m, s, ms);
    TopIsNotDv(m, s, ms);
    if s.dv != 0 { DvIsFree(m, s, ms); }
  }

  lemma ServedByRest(m: Mem, s: Space, ms: int, f: Sizing, nb: nat, dvsize: nat)
    requires HeapOk(m, s, ms) && BinnedOk(s, f, {}) && 0 < nb && Passed(f, dvsize, nb)
    requires dvsize == if s.dv == 0 then 0 else SizeOf(s, s.dv)
    ensures nb <= dvsize ==> Serves(s, nb, s.dv) && s.dv != s.top
    ensures dvsize < nb < SizeOf(s, s.top) ==> Serves(s, nb, s.top)
    ensures NothingFree(s, nb) <==> dvsize < nb && SizeOf(s, s.top) <= nb
  {
    hide HeapOk;
    NoNullChunk(m, s, ms);
    forall q | Shelved(s, q) ensures q in f && f[q] == SizeOf(s, q) { FreeIsBinned(s, f, q); }
  }

  // ----- try_realloc_chunk -----

  /** The size of a chunk that holds `nb` bytes where it is, alone or together with the free one behind it. */
  function ResizedTo(s: Space, p: int, nb: nat): nat {
    if nb <= SizeOf(s, p) then TakenSize(SizeOf(s, p), nb)
    else if NextOf(s, p) == s.top then nb else TakenSize(Room(s, p), nb)
  }

  /** When that is `dv`, what is left of both is `dv`. */
  function DvResized(s: Space, p: int, nb: nat): int {
    if NextOf(s, p) != s.dv then s.dv
    else if nb <= SizeOf(s, p) then (if SizeOf(s, p) < nb + MIN_CHUNK_SIZE then s.dv else p + nb)
    else if Room(s, p) < nb + MIN_CHUNK_SIZE then 0 else p + nb
  }

  /** A client's chunk can have `nb` bytes without moving: its own, and those of a free next chunk; `top` must keep
      something. */
  predicate CanReach(s: Space, p: int, nb: nat) {
    || nb <= SizeOf(s, p)
    || (FreeAt(s, NextOf(s, p)) && if NextOf(s, p) == s.top then nb < Room(s, p) else nb <= Room(s, p))
  }

  /** How many bytes `mspace_realloc` keeps. */
  function KeptBy(size: nat, bytes: nat): nat
    requires size >= CHUNK_OVERHEAD
  {
    if size - CHUNK_OVERHEAD < bytes then size - CHUNK_OVERHEAD else bytes
  }

  ghost predicate InPlace(s: Space, p: int, nb: nat, s': Space) {
    && SameRegions(s, s') && Live(s') == (Live(s) - {p})[p := ResizedTo(s, p, nb)] && s'.dv == DvResized(s, p, nb)
  }

  /** The chunks in `[lo, hi)` become two, both in use when `v` says so. */
  function Split(s: Space, lo: int, mid: int, hi: int, v: bool): Space {
    if lo in s.chunks && lo < mid < hi then TwoSpace(s, lo, mid, hi, v, s.top, s.dv) else s
  }

  /** `dv` once the second one of them has been given back. */
  lemma SplitGivenBack(m: Mem, s: Space, ms: int, m1: Mem, s1: Space, p: int, nb: nat, hi: int, lo: int)
    requires HeapOk(m, s, ms) && p in Live(s) && s1 == Split(s, p, p + nb, hi, true) && 0 < nb && p + nb < hi
    requires hi == NextOf(s, p) || (hi == FreeEnd(s, p) && NextOf(s, p) != s.dv && NextOf(s, p) != s.top)
    requires HeapOk(m1, s1, ms) && p + nb in Live(s1) && Neighbours(s1, p + nb, lo)
    ensures FreedSpace(s1, p + nb, lo).dv == if hi == NextOf(s, p) == s.dv then p + nb else s.dv
  {
    hide HeapOk, FreedSpace, Live, FreeEnd, One, Two;
    UsedFacts(m, s, ms, p);
    UsedIn(m, s, p);
    SplitParts(s, p, nb, hi);
    UsedFacts(m1, s1, ms, p + nb);
    UsedIn(m1, s1, p + nb);
    FreedIs(m1, s1, ms, p + nb, lo);
    NoNullChunk(m1, s1, ms);
    LiveSize(m1, s1, ms, p + nb);
    NextPlace(m, s, ms, p);
    NoNullChunk(m, s, ms);
  }

  lemma SplitParts(s: Space, p: int, nb: nat, hi: int)
    requires p in s.chunks && 0 < nb && p + nb < hi
    ensures var s' := Split(s, p, p + nb, hi, true);
      && s'.dv == s.dv && p + nb in s'.chunks && s'.chunks[p + nb].pin && NextOf(s', p + nb) == hi
      && NextOf(s', p) == p + nb && UsedAt(s', p + nb)
  {}

  /** What lies behind a client's chunk, and behind that when it is free and not `top`. */
  lemma NextPlace(m: Mem, s: Space, ms: int, p: int)
    requires HeapOk(m, s, ms) && p in Live(s)
    ensures NextOf(s, p) in s.chunks && NextOf(s, p) != 0 && SizeOf(s, p) == Live(s)[p]
    ensures NextOf(s, p) != s.top ==> UsedAt(s, FreeEnd(s, p))
    ensures FreeAt(s, NextOf(s, p)) ==> Room(s, p) == SizeOf(s, p) + SizeOf(s, NextOf(s, p))
    ensures FreeAt(s, s.top) && s.top != s.dv && (s.dv != 0 ==> FreeAt(s, s.dv))
  {
    hide HeapOk;
    NextThere(m, s, ms, p);
    LiveSize(m, s, ms, p);
    FreeEndIs(m, s, ms, p, p);
    NoNullChunk(m, s, ms);
  }

  // ----- internal_memalign -----

  /** Where an aligned chunk is cut out: at the front, or at the first aligned place behind a leading chunk. */
  predicate AlignedIn(p0: int, al: nat, p: int)
    requires al > 0
  {
    && (p + 16) % al == 0
    && if (p0 + 16) % al == 0 then p == p0 else p0 + MIN_CHUNK_SIZE <= p < p0 + MIN_CHUNK_SIZE + al
  }

  /** How much of it stays when spare room at the end is given back. */
  function FittedTo(size: nat, nb: nat): nat { if size > nb + MIN_CHUNK_SIZE then nb else size }

  /** What is given back at the end is merged with `dv` when that is behind it. */
  function DvFitted(dv: int, p: int, size: nat, nb: nat): int {
    if size > nb + MIN_CHUNK_SIZE && p + size == dv then p + nb else dv
  }

  /** A chunk before one in use leaves `dv` where it is. */
  lemma BeforeOneInUse(m: Mem, s: Space, ms: int, p: int, lo: int)
    requires HeapOk(m, s, ms) && p in Live(s) && Neighbours(s, p, lo) && UsedAt(s, NextOf(s, p))
    ensures FreedSpace(s, p, lo).dv == s.dv
  {
    hide HeapOk, FreedSpace, Live, FreeEnd;
    FreedIs(m, s, ms, p, lo);
  }

  // ----- giving memory back to the system -----

  /** A segment that is one free chunk, but for its record. */
  predicate Offered(s: Space, r: Region) {
    !r.pinned && FreeAt(s, r.base) && NextOf(s, r.base) >= EndOf(r) - TOP_FOOT_SIZE
  }

  /** How many of the segments are. */
  function Offers(s: Space, l: seq<Region>): nat {
    if l == [] then 0 else (if Offered(s, l[0]) then 1 else 0) + Offers(s, l[1..])
  }

  /** Those that stay, when the system is asked to take the others one after the other. */
  function Remaining(a: seq<Answer>, s: Space, l: seq<Region>, k: nat): seq<Region> {
    if l == [] then []
    else if !Offered(s, l[0]) then [l[0]] + Remaining(a, s, l[1..], k)
    else if Said(a, k).yes then Remaining(a, s, l[1..], k + 1)
    else [l[0]] + Remaining(a, s, l[1..], k + 1)
  }

  /** `dv` is forgotten when it is all of one of the first `j` segments and the system is asked to take that. */
  ghost function DvOffered(s: Space, j: nat): int {
    if exists x :: 0 < x < j && x < |s.regs| && Offered(s, s.regs[x]) && s.regs[x].base == s.dv then 0 else s.dv
  }

  /** The counter is set to the number of segments looked at, or to its usual value when that is larger. */
  function ChecksAfter(s: Space): int {
    if |s.regs| - 1 > MAX_RELEASE_CHECK_RATE then |s.regs| - 1 else MAX_RELEASE_CHECK_RATE
  }

  /** `release_unused_segments`: unused segments but the first are offered one after the other. */
  ghost predicate ReleaseDoes(a: seq<Answer>, v: View, v': View) {
    var s, s' := v.space, v'.space;
    && s.regs != [] && s'.regs == [s.regs[0]] + Remaining(a, s, s.regs[1..], v.asked)
    && Live(s') == Live(s) && s'.top == s.top
    && s'.dv == DvOffered(s, |s.regs|)
    && v'.asked == v.asked + Offers(s, s.regs[1..]) && v'.trimCheck == v.trimCheck
    && v'.releaseChecks == ChecksAfter(s)
  }

  /** The whole units at the end of `top` that `sys_trim` offers to the system. */
  function Extra(topsize: nat, pad: nat): nat {
    if topsize <= pad then 0 else ((topsize - pad + (GRANULARITY - 1)) / GRANULARITY - 1) * GRANULARITY
  }

  /** It does so when the segment of `top` can shrink. */
  ghost predicate EndOffered(s: Space, ms: int, pad: nat) {
    && SizeOf(s, s.top) > pad && s.regs != [] && !s.regs[0].pinned && s.regs[0].size >= Extra(SizeOf(s, s.top), pad)
    && !Linked(s, ms, s.regs[0])
  }

  /** The record of some segment lies in this one. */
  ghost predicate Linked(s: Space, ms: int, ss: Region) {
    exists i :: 0 <= i < |s.regs| && SegmentHolds(ss, RecordAt(s, ms, i))
  }

  /** What the first half of `sys_trim` leaves. */
  ghost function TrimmedView(a: seq<Answer>, v: View, ms: int, pad: nat): View {
    var s := v.space;
    var extra := Extra(SizeOf(s, s.top), pad);
    if !EndOffered(s, ms, pad) then v
    else if !Said(a, v.asked).yes || !(0 < extra <= SizeOf(s, s.top)) then v.(asked := v.asked + 1)
    else v.(space := TrimmedSpace(s, extra), asked := v.asked + 1, trimCheck := DEFAULT_TRIM_THRESHOLD)
  }

  /** `sys_trim`: the end of `top`, then unused segments. When nothing has been given back, trimming is turned off. */
  ghost predicate TrimDoes(a: seq<Answer>, v: View, ms: int, pad: nat, v': View) {
    if pad >= MAX_REQUEST then v' == v
    else
      var v1 := TrimmedView(a, v, ms, pad + TOP_FOOT_SIZE);
      && ReleaseDoes(a, v1, v'.(trimCheck := v1.trimCheck))
      && v'.trimCheck ==
        if Footprint(v'.space.regs) == Footprint(v.space.regs) && SizeOf(v.space, v.space.top) > v1.trimCheck
        then MAX_SIZE_T else v1.trimCheck
  }

  // ----- mspace_free -----

  /** Chunk `p` and its free neighbours, from `lo` on, are one free chunk. */
  function FreedSpace(s: Space, p: int, lo: int): Space {
    if lo in s.chunks && lo < FreeEnd(s, p)
    then OneSpace(s, lo, FreeEnd(s, p), false, TopAfter(s, p, lo), DvAfter(s, p, lo))
    else s
  }

  ghost predicate PutBackDoes(a: seq<Answer>, v: View, size: nat, v': View) {
    if IsSmall(size) then v' == v
    else if v.releaseChecks == 1 then ReleaseDoes(a, v, v')
    else v.releaseChecks > 1 && v' == v.(releaseChecks := v.releaseChecks - 1)
  }

  /** `mspace_free`: the chunk is merged with its free neighbours. When that makes `top` larger than `trim_check`, it is
      trimmed; when a large chunk goes to its bin, unused segments are looked at every so often. */
  ghost predicate FreedFrom(a: seq<Answer>, v: View, ms: int, p: int, lo: int, v': View) {
    var s := v.space;
    var v1 := v.(space := FreedSpace(s, p, lo));
    if NextOf(s, p) == s.top then
      if SizeOf(v1.space, lo) > v.trimCheck then TrimDoes(a, v1, ms, 0, v') else v' == v1
    else if v1.space.dv == lo then v' == v1
    else PutBackDoes(a, v1, SizeOf(v1.space, lo), v')
  }

  ghost predicate FreeDoes(a: seq<Answer>, v: View, ms: int, p: int, v': View) {
    && Live(v'.space) == Live(v.space) - {p}
    && exists lo :: Neighbours(v.space, p, lo) && FreedFrom(a, v, ms, p, lo, v')
  }

  // ----- the loop of release_unused_segments -----

  /** The first `j` segments of `s0` have been looked at, and the first `i` of `s` are what is left of them. */
  ghost predicate Looked(a: seq<Answer>, s0: Space, k0: nat, s: Space, k: nat, i: nat, j: nat) {
    && 0 < i <= j <= |s0.regs| && |s.regs| == i + |s0.regs| - j && s.regs[i..] == s0.regs[j..]
    && [s0.regs[0]] + Remaining(a, s0, s0.regs[1..], k0) == s.regs[..i] + Remaining(a, s0, s0.regs[j..], k)
    && k + Offers(s0, s0.regs[j..]) == k0 + Offers(s0, s0.regs[1..])
    && s.top == s0.top && s.dv == DvOffered(s0, j)
    && forall x :: j <= x < |s0.regs| ==> (Offered(s, s0.regs[x]) <==> Offered(s0, s0.regs[x]))
  }

  lemma LookedFirst(a: seq<Answer>, s: Space, k: nat)
    requires s.regs != []
    ensures Looked(a, s, k, s, k, 1, 1)
  {}

  lemma LookedNext(a: seq<Answer>, s0: Space, k0: nat, s: Space, k: nat, i: nat, j: nat)
    requires Looked(a, s0, k0, s, k, i, j) && j < |s0.regs|
    ensures i < |s.regs| && s.regs[i] == s0.regs[j] && s0.regs[j..][0] == s0.regs[j]
    ensures s0.regs[j..][1..] == s0.regs[j + 1..] && s.regs[i..][1..] == s.regs[i + 1..]
    ensures s.regs[..i + 1] == s.regs[..i] + [s.regs[i]]
    ensures Offered(s, s.regs[i]) <==> Offered(s0, s0.regs[j])
  {
    assert s.regs[i..][0] == s0.regs[j..][0];
  }

  lemma LookedOn(a: seq<Answer>, s0: Space, k0: nat, s: Space, k: nat, i: nat, j: nat)
    requires Looked(a, s0, k0, s, k, i, j) && j < |s0.regs| && !Offered(s0, s0.regs[j])
    ensures Looked(a, s0, k0, s, k, i + 1, j + 1)
  {
    hide Offered;
    LookedNext(a, s0, k0, s, k, i, j);
  }

  lemma LookedKept(a: seq<Answer>, s0: Space, k0: nat, s: Space, k: nat, i: nat, j: nat)
    requires Looked(a, s0, k0, s, k, i, j) && j < |s0.regs| && Offered(s0, s0.regs[j]) && !Said(a, k).yes
    requires s0.regs[j].base != 0
    ensures Looked(a, s0, k0, Unheld(s, s0.regs[j].base), k + 1, i + 1, j + 1)
  {
    hide Said;
    LookedNext(a, s0, k0, s, k, i, j);
  }

  lemma LookedGone(a: seq<Answer>, s0: Space, k0: nat, s: Space, k: nat, i: nat, j: nat, s': Space)
    requires Looked(a, s0, k0, s, k, i, j) && j < |s0.regs| && Offered(s0, s0.regs[j]) && Said(a, k).yes
    requires s0.regs[j].base != 0 && s'.regs == s.regs[..i] + s.regs[i + 1..] && s'.top == s.top
    requires s'.dv == Unheld(s, s0.regs[j].base).dv
    requires forall x :: i < x < |s.regs| ==> (Offered(s', s.regs[x]) <==> Offered(s, s.regs[x]))
    ensures Looked(a, s0, k0, s', k + 1, i, j + 1)
  {
    hide Said, Offered;
    LookedNext(a, s0, k0, s, k, i, j);
    forall x | j < x < |s0.regs| ensures Offered(s', s0.regs[x]) <==> Offered(s0, s0.regs[x]) {
      assert s0.regs[x] == s0.regs[j..][x - j] == s.regs[i..][x - j] == s.regs[x - j + i];
    }
  }

  lemma LookedAll(a: seq<Answer>, v: View, v': View, i: nat)
    requires Looked(a, v.space, v.asked, v'.space, v'.asked, i, |v.space.regs|) && Live(v'.space) == Live(v.space)
    requires v'.trimCheck == v.trimCheck && v'.releaseChecks == ChecksAfter(v.space)
    ensures ReleaseDoes(a, v, v')
  {
    hide Live, Offered, Said;
    var s0, s := v.space, v'.space;
    assert s.regs[..i] == s.regs;
    assert s0.regs[|s0.regs|..] == [];
  }

  /** A segment that goes changes nothing for the others. */
  lemma OthersOffered(s: Space, ms: int, i: nat, x: nat)
    requires Shape(s, ms) && RecordsPlaced(s, ms) && 0 < i < |s.regs| == |s.recs| + 1 && x < |s.regs| && x != i
    ensures Offered(ReleasedSpace(s, i), s.regs[x]) <==> Offered(s, s.regs[x])
  {
    hide Shape, RecordsPlaced, RegionsOk;
    PlacedRegions(s, ms);
    SameBase(s.segs, TopSeg(s), s.regs, i, x);
    BaseInSegs(s.segs, TopSeg(s), s.regs, x);
    SegmentOf(s, ms, s.regs[x].base);
  }

  /** One step of the loop. */
  lemma LookedStep(m: Mem, s: Space, ms: int, a: seq<Answer>, s0: Space, k0: nat, k: nat, i: nat, j: nat, s': Space,
    offered: bool, gone: bool)
    requires HeapOk(m, s, ms) && SegsOk(m, s, ms) && Looked(a, s0, k0, s, k, i, j) && j < |s0.regs|
    requires i < |s.regs| == |s.recs| + 1 && 0 < i
    requires (offered <==> Offered(s, s.regs[i])) && (gone <==> offered && Said(a, k).yes)
    requires s' ==
      var u := Unheld(s, s.regs[i].base);
      if !offered then s else if !gone then u else ReleasedSpace(u, i)
    ensures Looked(a, s0, k0, s', if offered then k + 1 else k, if gone then i else i + 1, j + 1)
  {
    hide HeapOk, ListOk, Shape, RecordsPlaced, RegionsOk, Looked, Offered;
    ShapeOf(m, s, ms);
    SegsRegions(m, s, ms);
    LookedNext(a, s0, k0, s, k, i, j);
    if !offered {
      LookedOn(a, s0, k0, s, k, i, j);
    } else {
      var u := Unheld(s, s.regs[i].base);
      BaseInSegs(s.segs, TopSeg(s), s.regs, i);
      SegmentOf(s, ms, s.regs[i].base);
      if gone {
        forall x | i < x < |s.regs| ensures Offered(s', s.regs[x]) <==> Offered(s, s.regs[x]) {
          OthersOffered(s, ms, i, x);
          SameOffers(s', ReleasedSpace(s, i), s.regs[x]);
        }
        LookedGone(a, s0, k0, s, k, i, j, s');
      } else {
        LookedKept(a, s0, k0, s, k, i, j);
      }
    }
  }

  lemma NotPinned(s: Space, r: Region)
    ensures Offered(s, r) ==> !r.pinned
  {}

  lemma SameOffers(s: Space, s': Space, r: Region)
    requires s.chunks == s'.chunks
    ensures Offered(s, r) <==> Offered(s', r)
  {}

  lemma BaseInSegs(g: Segments, topSeg: int, r: seq<Region>, x: nat)
    requires RegionsOk(g, topSeg, r) && x < |r|
    ensures r[x].base in g
  {
    assert RegionOk(g, r[x], 32);
  }

  // ----- the merged chunk -----

  lemma FreedIs(m: Mem, s: Space, ms: int, p: int, lo: int)
    requires HeapOk(m, s, ms) && p in Live(s) && Neighbours(s, p, lo)
    ensures lo in s.chunks && lo < FreeEnd(s, p)
    ensures FreedSpace(s, p, lo) == OneSpace(s, lo, FreeEnd(s, p), false, TopAfter(s, p, lo), DvAfter(s, p, lo))
    ensures UsedAt(s, NextOf(s, p)) || Shelved(s, NextOf(s, p)) ==>
      TopAfter(s, p, lo) == s.top && DvAfter(s, p, lo) == s.dv
    ensures NextOf(s, p) == s.top ==> TopAfter(s, p, lo) == lo && DvAfter(s, p, lo) == if lo == s.dv then 0 else s.dv
    ensures s.dv != 0 && NextOf(s, p) == s.dv ==> TopAfter(s, p, lo) == s.top && DvAfter(s, p, lo) == lo
  {
    hide HeapOk, Around, EndPlace, OneSpace;
    AroundFrom(m, s, ms, p, lo);
    AroundStarts(m, s, ms, p, lo);
    FreeEndIs(m, s, ms, p, lo);
    EndAfter(s, p, lo);
    NoNullChunk(m, s, ms);
  }

  lemma EndAfter(s: Space, p: int, lo: int)
    requires EndPlace(s, p, lo)
    ensures lo in s.chunks && lo < FreeEnd(s, p)
  {}
}
