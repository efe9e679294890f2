/** The allocator itself: `malloc_state`, the memory it manages, and the operations on both. */
module Mspaces {
  import opened Words
  import opened BinMap
  import opened TreeIndex
  import opened Rings
  import opened Tries
  import opened TrieMemory
  import opened Bins
  import opened SmallBins
  import opened TreeBins
  import opened TreeUnlink
  import opened Search
  import opened Heap
  import opened HeapMemory
  import opened HeapEdits
  import opened Freeing
  import opened Bytes
  import opened Bitwise
  import opened Clients
  import opened Shrinking
  import opened Start
  import opened Regions
  import opened Records
  import opened Effects

  class Mspace {
    const ms: int
    var mem: Mem
    var leastAddr: int
    var smallmap: Word32
    var treemap: Word32
    var dv: int
    var dvsize: nat
    var top: int
    var topsize: nat
    var trimCheck: nat
    var releaseChecks: nat
    var seg: Region
    var segNext: int

    /** What the system says to one call after the other, and how many there have been. */
    const answers: seq<Answer>
    var asked: nat

    ghost var binned: Sizing
    ghost var held: Held
    ghost var space: Space

    /** The bins hold exactly the chunks of `binned`. */
    ghost predicate BinsValid()
      reads this
    {
      Bounded() && BinsHold(mem, binned, ms, held, smallmap, treemap)
    }

    /** `least_addr` is a lower bound of all that the allocator manages. */
    ghost predicate Bounded()
      reads this
    {
      BinsAbove(binned, leastAddr, ms)
    }

    /** The heap invariant but for the segment records, while the free chunks in `out` are in no bin. */
    ghost predicate Parts(out: set<int>)
      reads this
    {
      && BinsValid() && HeapOk(mem, space, ms) && BinnedOk(space, binned, out)
      && SegsAbove(space.segs, leastAddr) && releaseChecks > 0
      && top == space.top && top in space.chunks && topsize == space.chunks[top].size
      && dv == space.dv && (dv == 0 ==> dvsize == 0)
      && (dv != 0 ==> dv in space.chunks && dvsize == space.chunks[dv].size)
    }

    /** The heap invariant, while the free chunks in `out` are in no bin. */
    ghost predicate Holding(out: set<int>)
      reads this
    {
      Parts(out) && SegsOk(mem, space, ms) && Headed(space.regs, space.recs, seg, segNext)
    }

    /** The segments, and the allocator's own chunks, are as they were. */
    twostate predicate SegmentsKept()
      reads this
    {
      SameRegions(old(space), space)
    }

    ghost predicate Valid()
      reads this
    {
      Holding({})
    }

    ghost function Seen(): View
      reads this
    {
      View(space, asked, trimCheck, releaseChecks)
    }

    /** Nothing has changed, but that the system may have been asked and have refused. */
    twostate predicate StateKept()
      reads this
    {
      && mem == old(mem) && leastAddr == old(leastAddr) && smallmap == old(smallmap) && treemap == old(treemap)
      && dv == old(dv) && dvsize == old(dvsize) && top == old(top) && topsize == old(topsize)
      && trimCheck == old(trimCheck) && releaseChecks == old(releaseChecks)
      && seg == old(seg) && segNext == old(segNext)
      && binned == old(binned) && held == old(held) && space == old(space)
    }

    /** The run-time check `ok_address`; the asserts below show that it never fails. */
    predicate OkAddress(a: int)
      reads this
    {
      a >= leastAddr
    }

    // ----- init_user_mstate -----

    /** `create_mspace_with_base`, given a base and a capacity that it accepts, and whatever memory holds there. */
    constructor (base: int, capacity: nat, m: Mem, answers: seq<Answer>)
      requires GoodRegion(base, capacity) && Mapped(m, base, base + capacity)
      ensures Valid() && ms == base + 16 && space == Initial(base, capacity) && Live(space) == map[]
      ensures IsZero(smallmap) && IsZero(treemap) && HeadersAlone(mem, ms)
      ensures Seen() == View(Initial(base, capacity), 0, DEFAULT_TRIM_THRESHOLD, MAX_RELEASE_CHECK_RATE)
      ensures this.answers == answers
    {
      this.answers := answers;
      asked := 0;
      ms := base + 16;
      leastAddr := base;
      mem := m;
      smallmap := ZERO;
      treemap := ZERO;
      dv := 0;
      dvsize := 0;
      releaseChecks := MAX_RELEASE_CHECK_RATE;
      seg := Region(base, capacity, true);
      segNext := 0;
      binned := map[];
      held := Held(NoLists(), NoTries());
      space := Initial(base, capacity);
      new;
      hide BinsHold, HeapOk, BinnedOk, Live, NoLists, NoTries, HasHead, Mapped, Initial, Headed, SegsOk, SegsAbove;
      hide BinsAbove, HeadersAlone;
      InitUserMstate(base, capacity);
      Created(mem, base, capacity, ms);
    }

    /** `init_user_mstate`: the state is cleared, and all memory behind it becomes `top`. */
    method InitUserMstate(base: int, capacity: nat)
      requires GoodRegion(base, capacity) && ms == base + 16 && Mapped(mem, base, base + capacity)
      modifies `mem, `top, `topsize, `trimCheck
      ensures Mapped(mem, base, base + capacity) && HasHead(mem, base, STATE_SIZE, true, true)
      ensures HasHead(mem, base + STATE_SIZE, capacity - STATE_SIZE - TOP_FOOT_SIZE, false, true)
      ensures HasHead(mem, base + capacity - TOP_FOOT_SIZE, TOP_FOOT_SIZE, false, false)
      ensures forall i :: 0 <= i < NTREEBINS ==> NumAt(mem, TreeBinAt(ms, i), 0)
      ensures HeadersAlone(mem, ms)
      ensures top == base + STATE_SIZE && topsize == capacity - STATE_SIZE - TOP_FOOT_SIZE
      ensures trimCheck == DEFAULT_TRIM_THRESHOLD
    {
      hide WordAt, NumAt, Link, SmallBinAt;
      Memset(ms, STATE_SIZE);
      ghost var m1 := mem;
      mem := Store(mem, base + HEAD, Head(STATE_SIZE, true, true));
      InitBins();
      ghost var m2 := mem;
      var mn := base + STATE_SIZE;
      InitTop(mn, capacity - STATE_SIZE - TOP_FOOT_SIZE);
      TreeBinsCleared(m1, mem, ms);
      HeadersStay(m2, mem, ms);
    }

    /** `memset` with zero. */
    method Memset(a: int, n: nat)
      requires Mapped(mem, a, a + n) && n % 8 == 0
      modifies `mem
      ensures forall j: nat :: j < n / 8 ==> NumAt(mem, WordAt(a, j), 0)
      ensures ChangedIn(old(mem), mem, a, a + n)
    {
      var i := 0;
      while i < n / 8
        invariant i <= n / 8 && ChangedIn(old(mem), mem, a, a + n)
        invariant forall j: nat :: j < i ==> NumAt(mem, WordAt(a, j), 0)
      {
        mem := Store(mem, WordAt(a, i), Data(0));
        i := i + 1;
      }
    }

    /** `init_bins` */
    method InitBins()
      requires Mapped(mem, ms + HEADERS, ms + HEADERS_END)
      modifies `mem
      ensures HeadersAlone(mem, ms)
      ensures ChangedIn(old(mem), mem, ms + HEADERS, TreeBinAt(ms, 0))
    {
      var i := 0;
      while i < NSMALLBINS
        invariant i <= NSMALLBINS && ChangedIn(old(mem), mem, ms + HEADERS, TreeBinAt(ms, 0))
        invariant forall j :: 0 <= j < i ==> Link(mem, SmallBinAt(ms, j), SmallBinAt(ms, j))
      {
        var b := SmallBinAt(ms, i);
        mem := Store(mem, b + FD, Data(b));
        mem := Store(mem, b + BK, Data(b));
        i := i + 1;
      }
    }

    /** `init_top`, for an aligned place. */
    method InitTop(p: int, psize: nat)
      requires p + HEAD in mem && p + psize + HEAD in mem && psize > 0
      modifies `mem, `top, `topsize, `trimCheck
      ensures top == p && topsize == psize && trimCheck == DEFAULT_TRIM_THRESHOLD
      ensures mem ==
        old(mem)[p + HEAD := Head(psize, false, true)][p + psize + HEAD := Head(TOP_FOOT_SIZE, false, false)]
    {
      top := p;
      topsize := psize;
      mem := Store(mem, p + HEAD, Head(psize, false, true));
      mem := Store(mem, p + psize + HEAD, Head(TOP_FOOT_SIZE, false, false));
      trimCheck := DEFAULT_TRIM_THRESHOLD;
    }

    // ----- segment records -----

    /** Record `i` of the list, the first one in the state, all others in memory, and where the next one is. */
    method ReadRecord(sp: int, ghost i: nat) returns (r: Region, next: int)
      requires Valid() && i < |space.regs| && sp == RecordAt(space, ms, i)
      ensures r == space.regs[i] && next == NextAt(space, ms, i) && sp != 0
      ensures next == 0 <==> i + 1 == |space.regs|
    {
      hide BinsHold, HeapOk, BinnedOk, ListOk, SegsAbove, BinsAbove;
      ListLength(mem, space, ms, space.regs);
      StateInMemory(mem, space, ms);
      if i > 0 { RecordPlaces(mem, space, ms, space.regs, i); }
      if i + 1 < |space.regs| { RecordPlaces(mem, space, ms, space.regs, i + 1); }
      if sp == ms + SEG {
        r := seg;
        next := segNext;
      } else {
        r := Region(Load(mem, sp), Load(mem, sp + 8), Load(mem, sp + 24) == EXTERN);
        next := Load(mem, sp + 16);
      }
    }

    /** Base and size of record `i`. */
    method SetRecord(sp: int, base: int, size: nat, ghost i: nat)
      requires Valid() && i < |space.regs| && sp == RecordAt(space, ms, i)
      requires base + size == EndOf(space.regs[i])
      modifies `mem, `seg
      ensures Parts({}) && PayloadKept(old(mem), mem, Live(space)) && old(mem).Keys <= mem.Keys
      ensures var l := space.regs[i := Region(base, size, space.regs[i].pinned)];
        ListOk(mem, space, ms, l) && Headed(l, space.recs, seg, segNext)
    {
      hide BinsHold, HeapOk, BinnedOk, ListOk, SegsAbove, BinsAbove, PayloadKept, Live, RecordInMem, EndOf;
      ListLength(mem, space, ms, space.regs);
      ghost var m0, r := mem, Region(base, size, space.regs[i].pinned);
      if i > 0 { RecordPlaces(mem, space, ms, space.regs, i); }
      if sp == ms + SEG {
        seg := Region(base, size, seg.pinned);
        NothingWritten(mem, space);
      } else {
        RecordStorable(mem, space.regs[i], sp, NextAt(space, ms, i));
        mem := Store(mem, sp, Data(base));
        mem := Store(mem, sp + 8, Data(size));
        RecordWritten(m0, mem, space, ms, i, base, size, binned, held, smallmap, treemap);
      }
      RecordSet(m0, mem, space, ms, i, r) by { assert EndOf(r) == base + size by { EndIs(r); } }
    }

    /** `segment_holding`: the record of the segment that an address lies in. */
    method SegmentHolding(a: int) returns (sp: int, r: Region, ghost i: nat)
      requires Valid()
      ensures i <= |space.regs| && (sp == 0 <==> i == |space.regs|)
      ensures i < |space.regs| ==> sp == RecordAt(space, ms, i) && r == space.regs[i] && SegmentHolds(r, a)
      ensures forall j :: 0 <= j < i ==> !SegmentHolds(space.regs[j], a)
    {
      hide BinsHold, HeapOk, BinnedOk, ListOk, SegsAbove, BinsAbove, Headed, SegmentHolds;
      ListLength(mem, space, ms, space.regs);
      sp := ms + SEG;
      i := 0;
      StateInMemory(mem, space, ms);
      r := Region(0, 0, false);
      while sp != 0
        invariant i <= |space.regs| && (sp == 0 <==> i == |space.regs|) && (sp != 0 ==> sp == RecordAt(space, ms, i))
        invariant forall j :: 0 <= j < i ==> !SegmentHolds(space.regs[j], a)
        decreases |space.regs| - i
      {
        var next: int;
        r, next := ReadRecord(sp, i);
        if SegmentHolds(r, a) { return; }
        sp := next;
        i := i + 1;
      }
    }

    // ----- insert_small_chunk, unlink_small_chunk, unlink_first_small_chunk -----

    method InsertSmallChunk(p: int, s: nat)
      requires BinsValid() && p !in binned && IsSmall(s) && leastAddr <= p && Chunks(mem, binned[p := s], ms)
      modifies `mem, `smallmap, `binned, `held
      ensures BinsValid() && binned == old(binned)[p := s]
      ensures OnlyBins(old(mem), mem, binned, ms)
      ensures |old(held).small| == NSMALLBINS && held.small == old(held).small[s / 8 := [p] + old(held).small[s / 8]]
    {
      hide BinsHold, TreeOk, Inserting, Chunks, Complete, Put, At, Ok, Holds;
      ghost var m0 := mem;
      SmallInsertReady(mem, binned, ms, held, smallmap, treemap, p, s);
      var i := s / 8;
      var b := SmallBinAt(ms, i);
      var f := b;
      ghost var sm := smallmap;
      if !smallmap[i] {
        smallmap := Or(smallmap, Idx2Bit(i));
      } else {
        f := Load(mem, b + FD);
      }
      mem := Store(mem, b + FD, Data(p));
      mem := Store(mem, f + BK, Data(p));
      mem := Store(mem, p + FD, Data(f));
      mem := Store(mem, p + BK, Data(b));
      assert smallmap == Or(sm, Idx2Bit(i));
      SmallInsertOk(m0, binned, ms, held, sm, treemap, p, s, mem);
      held := Held(held.small[i := [p] + held.small[i]], held.trees);
      binned := binned[p := s];
    }

    method UnlinkSmallChunk(p: int, s: nat)
      requires BinsValid() && p in binned && binned[p] == s && IsSmall(s)
      modifies `mem, `smallmap, `binned, `held
      ensures BinsValid() && binned == old(binned) - {p}
      ensures OnlyBins(old(mem), mem, old(binned), ms)
    {
      hide BinsHold, Chunks, SmallOk, Apart, Without;
      var i := s / 8;
      ghost var k := SmallPlace(mem, binned, ms, held, smallmap, treemap, p);
      ghost var l := held.small[i];
      ghost var m0, sm := mem, smallmap;
      SmallUnlinkReady(mem, binned, ms, i, l, k);
      var f := Load(mem, p + FD);
      var b := Load(mem, p + BK);
      assert f == SmallBinAt(ms, i) || (OkAddress(f) && Load(mem, f + BK) == p);
      if b == f {
        smallmap := And(smallmap, Not(Idx2Bit(i)));
      } else {
        assert b == SmallBinAt(ms, i) || (OkAddress(b) && Load(mem, b + FD) == p);
        mem := Store(mem, f + BK, Data(b));
        mem := Store(mem, b + FD, Data(f));
      }
      SmallUnlinkOk(m0, binned, ms, held, sm, treemap, i, k, mem);
      held := Held(held.small[i := Without(l, k)], held.trees);
      binned := binned - {p};
    }

    /** Unlinks `p`, the newest chunk of bin `i`, given its header `b`. */
    method UnlinkFirstSmallChunk(b: int, p: int, i: nat)
      requires BinsValid() && i < NSMALLBINS && b == SmallBinAt(ms, i) && |held.small| == NSMALLBINS
      requires held.small[i] != [] && p == held.small[i][0]
      modifies `mem, `smallmap, `binned, `held
      ensures BinsValid() && binned == old(binned) - {p}
      ensures OnlyBins(old(mem), mem, old(binned), ms)
    {
      hide BinsHold, Chunks, SmallOk, Apart, Without;
      ghost var l := held.small[i];
      ghost var m0, sm := mem, smallmap;
      SmallBinFacts(mem, binned, ms, held, smallmap, treemap, i);
      SmallUnlinkReady(mem, binned, ms, i, l, 0);
      var f := Load(mem, p + FD);
      if b == f {
        smallmap := And(smallmap, Not(Idx2Bit(i)));
      } else {
        assert OkAddress(f) && Load(mem, f + BK) == p;
        mem := Store(mem, f + BK, Data(b));
        mem := Store(mem, b + FD, Data(f));
      }
      SmallUnlinkOk(m0, binned, ms, held, sm, treemap, i, 0, mem);
      held := Held(held.small[i := Without(l, 0)], held.trees);
      binned := binned - {p};
    }

    // ----- insert_large_chunk -----

    method InsertLargeChunk(x: int, s: nat)
      requires BinsValid() && x !in binned && !IsSmall(s) && leastAddr <= x && Chunks(mem, binned[x := s], ms)
      modifies `mem, `treemap, `binned, `held
      ensures BinsValid() && binned == old(binned)[x := s]
      ensures OnlyBins(old(mem), mem, binned, ms)
    {
      hide BinsHold, TreeOk, Inserting, Chunks, Complete, Put, At, Ok, Holds;
      PreparedOk(mem, binned, ms, held, smallmap, treemap, x, s);
      var i := ComputeTreeIndex(s);
      var h := TreeBinAt(ms, i);
      ghost var g := binned[x := s];
      mem := Store(mem, x + INDEX, Data(i));
      mem := Store(mem, x + CHILD1, Data(0));
      mem := Store(mem, x + CHILD0, Data(0));
      TouchesOnlyBins(old(mem), mem, g, ms, {x}, h, h);
      ghost var m1, tm := mem, treemap;
      TreeBinFacts(mem, binned, ms, held, smallmap, treemap, i);
      if !treemap[i] {
        treemap := Or(treemap, Idx2Bit(i));
        InsertAsRoot(x, s, i, h, tm);
      } else {
        InsertIntoTree(x, s, i);
      }
      binned := g;
      OnlyBinsTrans(old(mem), m1, mem, g, ms);
    }

    /** The new chunk becomes the root of an empty bin, whose map bit has just been set. */
    method InsertAsRoot(x: int, s: nat, i: nat, h: int, ghost tm: Word32)
      requires i == ComputeTreeIndex(s) && i < NTREEBINS && !IsSmall(s) && x !in binned && h == TreeBinAt(ms, i)
      requires Chunks(mem, binned[x := s], ms) && BinsHold(mem, binned, ms, held, smallmap, tm)
      requires treemap == Or(tm, Idx2Bit(i))
      requires |held.trees| == NTREEBINS && held.trees[i].Empty?
      requires Inserting(mem, binned, binned[x := s], ms, i, Empty, x)
      requires x + PARENT in mem && x + FD in mem && x + BK in mem && h in mem
      modifies `mem, `held
      ensures BinsHold(mem, binned[x := s], ms, held, smallmap, treemap)
      ensures OnlyBins(old(mem), mem, binned[x := s], ms)
    {
      hide BinsHold, TreeOk, Inserting, Chunks, Complete, Put, At, Ok, Holds;
      InsertRoot(mem, binned, binned[x := s], ms, i, x);
      mem := Store(mem, h, Data(x));
      mem := Store(mem, x + PARENT, Data(h));
      mem := Store(mem, x + BK, Data(x));
      mem := Store(mem, x + FD, Data(x));
      InsertedOk(old(mem), mem, binned, ms, held, smallmap, tm, x, s, Single(x, s), {x}, h + 8, treemap);
      held := Held(held.small, held.trees[i := Single(x, s)]);
    }

    /** The walk has found no child where the new size belongs: hang it there, below `t`. */
    method InsertAsChild(x: int, s: nat, i: nat, t: int, c: int, ghost path: seq<bool>, ghost right: bool)
      requires i == ComputeTreeIndex(s) && i < NTREEBINS && treemap == Or(treemap, Idx2Bit(i)) && !IsSmall(s)
      requires x !in binned
      requires Chunks(mem, binned[x := s], ms) && BinsHold(mem, binned, ms, held, smallmap, treemap)
      requires |held.trees| == NTREEBINS && Inserting(mem, binned, binned[x := s], ms, i, held.trees[i], x)
      requires x + PARENT in mem && x + FD in mem && x + BK in mem && c in mem
      requires var tree := held.trees[i];
        && tree.Node? && OnTrie(tree, path) && Sub(tree, path).Node? && t == AddrOf(Sub(tree, path))
        && c == ChildWord(t, right)
        && |path| < BinBits(i) && Child(Sub(tree, path), right).Empty? && s !in Sizes(tree)
        && var lo := LoAt(BinLo(i), BinBits(i), path + [right]);
        lo <= s < lo + Pow2(BinBits(i) - |path| - 1)
      modifies `mem, `held
      ensures BinsHold(mem, binned[x := s], ms, held, smallmap, treemap)
      ensures OnlyBins(old(mem), mem, binned[x := s], ms)
    {
      hide BinsHold, TreeOk, Inserting, Chunks, Complete, Put, At, Ok, Holds;
      ghost var tree := held.trees[i];
      assert binned[x := s][x] == s;
      InsertBelow(mem, binned, binned[x := s], ms, i, tree, path, right, x);
      mem := Store(mem, c, Data(x));
      mem := Store(mem, x + PARENT, Data(t));
      mem := Store(mem, x + BK, Data(x));
      mem := Store(mem, x + FD, Data(x));
      InsertedOk(old(mem), mem, binned, ms, held, smallmap, treemap, x, s, PutBelow(tree, path, right, x, s), {x, t},
          TreeBinAt(ms, i), treemap);
      held := Held(held.small, held.trees[i := PutBelow(tree, path, right, x, s)]);
    }

    /** The walk has found a chunk of the same size: chain the new one behind it. */
    method InsertIntoRing(x: int, s: nat, i: nat, t: int, ghost path: seq<bool>)
      requires i == ComputeTreeIndex(s) && i < NTREEBINS && treemap == Or(treemap, Idx2Bit(i)) && !IsSmall(s)
      requires x !in binned
      requires Bounded() && Chunks(mem, binned[x := s], ms) && BinsHold(mem, binned, ms, held, smallmap, treemap)
      requires |held.trees| == NTREEBINS && Inserting(mem, binned, binned[x := s], ms, i, held.trees[i], x)
      requires x + PARENT in mem && x + FD in mem && x + BK in mem
      requires var tree := held.trees[i];
        && tree.Node? && OnTrie(tree, path) && |path| <= BinBits(i) && Sub(tree, path).Node?
        && t == AddrOf(Sub(tree, path)) && Sub(tree, path).size == s
      modifies `mem, `held
      ensures BinsHold(mem, binned[x := s], ms, held, smallmap, treemap)
      ensures OnlyBins(old(mem), mem, binned[x := s], ms)
    {
      hide BinsHold, TreeOk, Inserting, Chunks, Complete, Put, At, Ok, Holds, BinLo, BinBits, Touches, OnlyBins;
      hide PutInRing, Ring;
      ghost var tree := held.trees[i];
      RingReadsIn(mem, binned, ms, held, smallmap, treemap, i, path);
      var f := Load(mem, t + FD);
      assert OkAddress(t) && OkAddress(f);
      mem := Store(mem, t + FD, Data(x));
      mem := Store(mem, f + BK, Data(x));
      mem := Store(mem, x + FD, Data(f));
      mem := Store(mem, x + BK, Data(t));
      mem := Store(mem, x + PARENT, Data(0));
      ChainInserted(old(mem), mem, binned, ms, held, smallmap, treemap, x, s, i, path);
      held := Held(held.small, held.trees[i := PutInRing(tree, path, x)]);
    }

    /** The walk of `insert_large_chunk` down a tree that is not empty. */
    method InsertIntoTree(x: int, s: nat, i: nat)
      requires i == ComputeTreeIndex(s) && i < NTREEBINS && treemap[i] && !IsSmall(s) && x !in binned
      requires Bounded() && Chunks(mem, binned[x := s], ms) && BinsHold(mem, binned, ms, held, smallmap, treemap)
      requires |held.trees| == NTREEBINS && Inserting(mem, binned, binned[x := s], ms, i, held.trees[i], x)
      requires x + PARENT in mem && x + FD in mem && x + BK in mem
      modifies `mem, `held
      ensures BinsHold(mem, binned[x := s], ms, held, smallmap, treemap)
      ensures OnlyBins(old(mem), mem, binned[x := s], ms)
    {
      hide BinsHold, TreeOk, Inserting, Chunks, Complete, Put, At, Ok, Holds, Walking, BinBits, BinLo, AddrOf, Sizes;
      hide OnTrie, LoAt, ChunkOk, Addrs;
      InsertStarts(mem, binned, ms, held, smallmap, treemap, i, x, s);
      ghost var tree, lo, e := held.trees[i], BinLo(i), BinBits(i);
      var t := Load(mem, TreeBinAt(ms, i));
      var k: nat := s * Pow2(LeftShift(i)) % TWO64;
      ghost var path: seq<bool> := [];
      while true
        invariant mem == old(mem) && held == old(held)
        invariant Walking(tree, lo, e, path, k, s) && OnTrie(tree, path) && |path| <= e && Sub(tree, path).Node?
        invariant t == AddrOf(Sub(tree, path))
        decreases e - |path|
      {
        WalkReadsIn(mem, binned, ms, held, smallmap, treemap, i, path);
        if LoadHead(mem, t).size != s {
          WalkOn(tree, lo, e, path, k, s);
          var right := k / 0x8000_0000_0000_0000 == 1;
          var c := ChildWord(t, right);
          k := k * 2 % TWO64;
          if Load(mem, c) != 0 {
            t := Load(mem, c);
            path := path + [right];
          } else {
            assert OkAddress(c);
            WalkEnds(tree, lo, e, path, right, k, s);
            InsertAsChild(x, s, i, t, c, path, right);
            return;
          }
        } else {
          InsertIntoRing(x, s, i, t, path);
          return;
        }
      }
    }

    // ----- unlink_large_chunk -----

    /** When `x` is the only chunk of its size: finds the leaf below it, right children first, that can replace it,
        and cuts that leaf off; null when `x` has no children. */
    method TakeLeaf(x: int, ghost n: Trie, ghost lo: nat, ghost e: nat, ghost par: int, ghost i: nat) returns (r: int)
      requires Bounded() && Chunks(mem, binned, ms) && i < NTREEBINS
      requires n.Node? && n.ring == [x] && Ok(n, lo, e) && Holds(n, binned) && At(mem, n, par, i)
      modifies `mem
      ensures IsLeaf(n) ==> r == 0 && mem == old(mem)
      ensures !IsLeaf(n) ==>
        Unlinked(n, 0).Node? && r == AddrOf(Unlinked(n, 0)) && Halfway(mem, Unlinked(n, 0), x, par, i)
      ensures Touches(old(mem), mem, binned, ms, Addrs(n), TreeBinAt(ms, i), TreeBinAt(ms, i))
    {
      hide Chunks, Ok, Holds, At, AllLarge, Seeking, Unlinked, Halfway, Touches, OnTrie, Sub, SlotOf;
      LargeIn(mem, binned, ms, n);
      NodeReads(mem, binned, ms, i, n, par);
      NothingTouched(mem, binned, ms, Addrs(n), i);
      var rp := x + CHILD1;
      r := Load(mem, rp);
      if r == 0 {
        rp := x + CHILD0;
        r := Load(mem, rp);
      }
      if r != 0 {
        SeekStart(n);
        ghost var q := [n.right.Node?];
        while true
          invariant mem == old(mem) && Seeking(n, q) && OnTrie(n, q) && OnTrie(n, q[..|q| - 1])
          invariant r == AddrOf(Sub(n, q)) && rp == SlotOf(n, q)
          decreases e - |q|
        {
          SeekReads(mem, binned, ms, i, n, lo, e, par, q);
          var cp := r + CHILD1;
          if Load(mem, cp) == 0 {
            cp := r + CHILD0;
            if Load(mem, cp) == 0 {
              break;
            }
          }
          rp := cp;
          r := Load(mem, cp);
          SeekOn(n, q);
          q := q + [Sub(n, q).right.Node?];
          SeekReads(mem, binned, ms, i, n, lo, e, par, q);
        }
        assert OkAddress(rp);
        LeafTouches(mem, binned, ms, i, n, lo, e, q);
        HalfwayByLeaf(mem, n, lo, e, binned, par, i, q);
        mem := Store(mem, rp, Data(0));
      }
    }

    /** `r` gets the parent and the children of `x`; the slot of `x` has just been given to `r`. */
    method AdoptChildren(x: int, xp: int, r: int, ghost m1: Mem, ghost slot: int, ghost s: Trie)
      requires Bounded() && slot in m1 && ReadyToAdopt(m1, binned, s, x, slot) && r == s.ring[0]
      requires mem == Store(m1, slot, Data(r))
      modifies `mem
      ensures mem == AdoptedBy(m1, slot, s, xp)
    {
      mem := Store(mem, r + PARENT, Data(xp));
      var c0 := Load(mem, x + CHILD0);
      if c0 != 0 {
        assert OkAddress(c0);
        mem := Store(mem, r + CHILD0, Data(c0));
        mem := Store(mem, c0 + PARENT, Data(r));
      }
      var c1 := Load(mem, x + CHILD1);
      if c1 != 0 {
        assert OkAddress(c1);
        mem := Store(mem, r + CHILD1, Data(c1));
        mem := Store(mem, c1 + PARENT, Data(r));
      }
    }

    /** Relinks the parent and the children of `x` to its replacement `r`, which is null when there is none. */
    method TakePlace(x: int, xp: int, r: int, ghost m0: Mem, ghost i: nat, ghost t: Trie, ghost path: seq<bool>)
      requires Bounded() && Chunks(m0, binned, ms) && i < NTREEBINS
      requires t.Node? && TreeOk(m0, binned, ms, i, t, true) && OnTrie(t, path) && Sub(t, path).Node?
      requires Sub(t, path).ring != [] && x == Sub(t, path).ring[0] && xp == ParentAt(t, path, TreeBinAt(ms, i))
      requires Touches(m0, mem, binned, ms, Addrs(Sub(t, path)), TreeBinAt(ms, i), TreeBinAt(ms, i))
      requires NumAt(mem, x + INDEX, i)
      requires var s := Unlinked(Sub(t, path), 0);
        if s.Node? then Halfway(mem, s, x, xp, i) && r == AddrOf(s) else mem == m0 && r == 0
      modifies `mem, `treemap
      ensures var t' := TreeWithout(t, path, 0);
        && At(mem, t', TreeBinAt(ms, i), i) && NumAt(mem, TreeBinAt(ms, i), AddrOf(t'))
        && treemap == if t'.Empty? then And(old(treemap), Not(Idx2Bit(i))) else old(treemap)
      ensures Touches(m0, mem, binned, ms, Addrs(t), TreeBinAt(ms, i), TreeBinAt(ms, i) + 8)
    {
      hide Chunks, TreeOk, Touches, Unlinked, At, Halfway, Put, Adoptable, Adopted, ReadyToAdopt, SlotReadable;
      ghost var m1, slot, s := mem, TreeSlot(t, path, TreeBinAt(ms, i)), Unlinked(Sub(t, path), 0);
      TakePlaceReads(m0, mem, binned, ms, i, t, path);
      EmptyOrNot(t, path, s);
      if s.Node? { HalfwayAddr(mem, s, x, xp, i); }
      PointSlotTo(x, xp, r, i, t, path);
      if r != 0 {
        HalfwayReads(m0, m1, binned, ms, i, t, path);
        ReadyFacts(m1, binned, s, x, slot);
        assert OkAddress(r);
        AdoptChildren(x, xp, r, m1, slot, s);
        SecondHalf(m0, m1, mem, binned, ms, i, t, path, s);
        SecondHalfTouches(m0, m1, mem, binned, ms, i, t, path, s, xp);
      } else {
        EmptyHalf(m0, mem, binned, ms, i, t, path);
      }
    }

    /** The word that pointed to `x`, a bin header or a child word, now points to `r`; an empty bin loses its map bit.
        */
    method PointSlotTo(x: int, xp: int, r: int, ghost i: nat, ghost t: Trie, ghost path: seq<bool>)
      requires Bounded() && i < NTREEBINS && NumAt(mem, x + INDEX, i) && OnTrie(t, path)
      requires SlotReadable(mem, binned, ms, i, t, path, x)
      requires xp == ParentAt(t, path, TreeBinAt(ms, i))
      modifies `mem, `treemap
      ensures TreeSlot(t, path, TreeBinAt(ms, i)) in old(mem)
      ensures mem == Store(old(mem), TreeSlot(t, path, TreeBinAt(ms, i)), Data(r))
      ensures treemap == if path == [] && r == 0 then And(old(treemap), Not(Idx2Bit(i))) else old(treemap)
    {
      var idx := Load(mem, x + INDEX);
      var h := TreeBinAt(ms, idx);
      if x == Load(mem, h) {
        mem := Store(mem, h, Data(r));
        if r == 0 {
          treemap := And(treemap, Not(Idx2Bit(idx)));
        }
      } else {
        assert OkAddress(xp);
        if Load(mem, xp + CHILD0) == x {
          mem := Store(mem, xp + CHILD0, Data(r));
        } else {
          mem := Store(mem, xp + CHILD1, Data(r));
        }
      }
    }

    /** The branch of `unlink_large_chunk` for a chunk that shares its node with others: they close up. */
    method TakeFromRing(x: int, ghost i: nat, ghost t: Trie, ghost path: seq<bool>, ghost k: nat) returns (r: int)
      requires Bounded() && i < NTREEBINS && Chunks(mem, binned, ms) && t.Node? && TreeOk(mem, binned, ms, i, t, true)
      requires OnTrie(t, path) && Sub(t, path).Node? && k < |Sub(t, path).ring| && |Sub(t, path).ring| > 1
      requires x == Sub(t, path).ring[k]
      modifies `mem
      ensures var c, s := Sub(t, path).ring, Unlinked(Sub(t, path), 0);
        k == 0 ==>
          && s.Node? && r == AddrOf(s) && Halfway(mem, s, c[0], ParentAt(t, path, TreeBinAt(ms, i)), i)
          && NumAt(mem, c[0] + INDEX, i)
          && Touches(old(mem), mem, binned, ms, Addrs(Sub(t, path)), TreeBinAt(ms, i), TreeBinAt(ms, i))
      ensures k > 0 ==>
        && At(mem, TreeWithout(t, path, k), TreeBinAt(ms, i), i)
        && NumAt(mem, TreeBinAt(ms, i), AddrOf(TreeWithout(t, path, k)))
        && TreeWithout(t, path, k).Node?
        && Touches(old(mem), mem, binned, ms, Addrs(t), TreeBinAt(ms, i), TreeBinAt(ms, i))
    {
      hide Addrs, BinsHold, Chunks, TreeOk, At, Ok, Holds, Touches, Unlinked, Halfway, TreeWithout;
      ghost var m0 := mem;
      UnlinkReads(mem, binned, ms, i, t, path, k);
      var f := Load(mem, x + FD);
      r := Load(mem, x + BK);
      assert OkAddress(f) && Load(mem, f + BK) == x && Load(mem, r + FD) == x;
      mem := Store(mem, f + BK, Data(r));
      mem := Store(mem, r + FD, Data(f));
      RingHalf(m0, mem, binned, ms, i, t, path, k);
    }

    /** `unlink_large_chunk`: `x` leaves the tree, and its place goes to another chunk of its size or to a leaf below.
        */
    method UnlinkLargeChunk(x: int)
      requires BinsValid() && x in binned && !IsSmall(binned[x])
      modifies `mem, `treemap, `binned, `held
      ensures BinsValid() && binned == old(binned) - {x}
      ensures OnlyBins(old(mem), mem, old(binned), ms)
    {
      hide BinLo, AddrOf, ParentAt, Known, LoAt, Sub, Addrs, BinsHold, Chunks, TreeOk, At, Ok, Holds, Touches, Unlinked;
      hide Halfway, TreeWithout, OnlyBins;
      ghost var i, path, k := LocateInTree(mem, binned, ms, held, smallmap, treemap, x);
      ghost var m0, tm, t := mem, treemap, held.trees[i];
      ghost var n := Sub(t, path);
      UnlinkReads(mem, binned, ms, i, t, path, k);
      var xp := Load(mem, x + PARENT);
      var r: int;
      if Load(mem, x + BK) != x {
        r := TakeFromRing(x, i, t, path, k);
      } else {
        NodePlace(mem, binned, ms, i, t, path);
        r := TakeLeaf(x, n, LoAt(BinLo(i), BinBits(i), path), BinBits(i) - |path|, xp, i);
        LeafHalf(m0, mem, i, n, xp);
      }
      if xp != 0 {
        TakePlace(x, xp, r, m0, i, t, path);
      } else {
        TouchesWiden(m0, mem, binned, ms, Addrs(t), TreeBinAt(ms, i), TreeBinAt(ms, i) + 8);
      }
      UnlinkedBins(m0, mem, binned, ms, held, smallmap, tm, i, path, k, TreeBinAt(ms, i) + 8, treemap);
      held := Held(held.small, held.trees[i := TreeWithout(t, path, k)]);
      binned := binned - {x};
    }

    // ----- the searches of tmalloc_large and tmalloc_small -----

    /** The walk of `tmalloc_large` in the tree that the request selects: towards a node of size `nb`, remembering the
        deepest right subtree not taken. Returns what is left to search. */
    method SearchTree(nb: nat, idx: nat) returns (t: int, v: int, rsize: nat, ghost rest: Trie, ghost rp: seq<bool>)
      requires BinsValid() && 0 < nb < TWO64 && idx == ComputeTreeIndex(nb) && idx < NTREEBINS
      requires |held.trees| == NTREEBINS
      requires held.trees[idx].Node? && nb >= MIN_LARGE_SIZE
      ensures t == AddrOf(rest) && (t == 0 <==> rest.Empty?) && (rest.Node? ==> Part(held.trees[idx], rp, rest))
      ensures Standing(binned, held.trees[idx], rest, Empty, v, rsize, nb) && Descending(rest, v, rsize, nb)
    {
      hide BinsHold, Chunks, TreeOk, At, Ok, Holds, OnTrack, Standing, Descending, NoneFit, OnTrie, Sub, Beats, BinLo;
      hide BinBits;
      ghost var tree, lo, e, good := held.trees[idx], BinLo(idx), BinBits(idx), nb < 0x100_0000_0000;
      TreeToSearch(mem, binned, ms, held, smallmap, treemap, idx, nb);
      RootPart(tree);
      StandingStarts(binned, tree, nb);
      t := Load(mem, TreeBinAt(ms, idx));
      v := 0;
      rsize := TWO64 - nb;
      var sizebits: nat := nb * Pow2(LeftShift(idx)) % TWO64;
      var rst := 0;
      ghost var path: seq<bool> := [];
      rest := Empty;
      rp := [];
      while true
        invariant OnTrie(tree, path) && Sub(tree, path).Node? && t == AddrOf(Sub(tree, path))
        invariant rst == AddrOf(rest) && (rest.Node? ==> Part(tree, rp, rest)) && (rst == 0 <==> rest.Empty?)
        invariant rsize > 0 && sizebits < TWO64 && Standing(binned, tree, Sub(tree, path), rest, v, rsize, nb)
        invariant if good then OnTrack(tree, lo, e, path, sizebits, nb, rest) else NoneFit(tree, nb)
        decreases e - |path|
      {
        ghost var n := Sub(tree, path);
        SearchReads(mem, binned, ms, held, smallmap, treemap, idx, path);
        StandingTest(mem, binned, ms, tree, n, rest, v, rsize, nb);
        var trem := Sub64(LoadHead(mem, t).size, nb);
        if trem < rsize {
          v := t;
          rsize := trem;
          if rsize == 0 {
            ExactEnd(binned, tree, n, rest, v, nb);
            rest, rp := n, path;
            return;
          }
        }
        StandingOn(binned, tree, lo, e, path, sizebits, nb, rest, v, rsize, good);
        ExtendPath(tree, path, true);
        var rt := Load(mem, t + CHILD1);
        var right := sizebits / 0x8000_0000_0000_0000 == 1;
        t := Load(mem, ChildWord(t, right));
        if rt != 0 && rt != t {
          rst := rt;
          rest, rp := n.right, path + [true];
        }
        path := path + [right];
        sizebits := sizebits * 2 % TWO64;
        if t == 0 {
          WalkOver(binned, tree, lo, e, path, sizebits, nb, rest, rp, v, rsize, good);
          t := rst;
          return;
        }
      }
    }

    /** The loop of `tmalloc_large` that goes down the left side of a subtree. */
    method SearchLeftmost(t0: int, v0: int, rsize0: nat, nb: nat, ghost i: nat, ghost start: Trie,
        ghost sp: seq<bool>) returns (v: int, rsize: nat)
      requires BinsValid() && MIN_LARGE_SIZE <= nb < TWO64 && i < NTREEBINS && |held.trees| == NTREEBINS
      requires t0 == AddrOf(start)
      requires (t0 == 0 <==> start.Empty?) && (start.Node? ==> Part(held.trees[i], sp, start))
      requires Standing(binned, held.trees[i], start, Empty, v0, rsize0, nb) && Descending(start, v0, rsize0, nb)
      ensures Standing(binned, held.trees[i], Empty, Empty, v, rsize, nb) && (v0 != 0 ==> v != 0)
    {
      hide BinsHold, Chunks, TreeOk, At, Ok, Holds, Standing, Descending, NoneFit, OnTrie, Sub, Beats, BinLo, BinBits;
      ghost var tree, n, path := held.trees[i], start, sp;
      var t := t0;
      v, rsize := v0, rsize0;
      TreeInMemory(mem, binned, ms, held, smallmap, treemap, i);
      while t != 0
        invariant (v0 != 0 ==> v != 0) && t == AddrOf(n) && (t == 0 <==> n.Empty?) && (n.Node? ==> Part(tree, path, n))
        invariant Standing(binned, tree, n, Empty, v, rsize, nb) && Descending(n, v, rsize, nb)
        decreases n
      {
        SearchReads(mem, binned, ms, held, smallmap, treemap, i, path);
        StandingTest(mem, binned, ms, tree, n, Empty, v, rsize, nb);
        DescendingStays(n, v, rsize, mem, binned, ms, nb);
        var trem := Sub64(LoadHead(mem, t).size, nb);
        if trem < rsize {
          rsize := trem;
          v := t;
        }
        DescentOn(mem, binned, ms, held, smallmap, treemap, i, path, v, rsize, nb);
        t := LoadLeftmostChild(t, n);
        path := path + [n.left.Empty?];
        n := LeftmostChild(n);
      }
    }

    /** `leftmost_child`. */
    method LoadLeftmostChild(t: int, ghost n: Trie) returns (c: int)
      requires NodeReadable(mem, binned, ms, n) && t == AddrOf(n)
      ensures c == AddrOf(LeftmostChild(n)) && (c == 0 <==> LeftmostChild(n).Empty?)
    {
      c := Load(mem, t + CHILD0);
      if c == 0 {
        c := Load(mem, t + CHILD1);
      }
    }

    /** The whole search of `tmalloc_large`: a best fit among the large chunks, or null when nothing fits. */
    method FindLarge(nb: nat) returns (v: int, rsize: nat)
      requires BinsValid() && MIN_LARGE_SIZE <= nb < TWO64
      ensures v == 0 ==> NoFit(binned, nb)
      ensures v != 0 ==> BestFit(binned, nb, v) && binned[v] == nb + rsize
    {
      hide BinsHold, Chunks, TreeOk, At, Ok, Holds, Standing, NoneFit, AllFit, Part, ComputeTreeIndex, InBin, LeftBits;
      hide And, Descending, LeastBit;
      IndexBelow(nb);
      var idx := ComputeTreeIndex(nb);
      TreeInMemory(mem, binned, ms, held, smallmap, treemap, idx);
      v, rsize := 0, TWO64 - nb;
      var t := Load(mem, TreeBinAt(ms, idx));
      ghost var i, rest: Trie, rp: seq<bool> := idx, Empty, [];
      LowerBinsSearched(mem, binned, ms, held, smallmap, treemap, nb, idx);
      if t != 0 {
        t, v, rsize, rest, rp := SearchTree(nb, idx);
      } else {
        StandingEmpty(binned, nb);
      }
      if t == 0 && v == 0 {
        NothingStanding(binned, held.trees[idx], rsize, nb);
        var leftbits := And(LeftBits(Idx2Bit(idx)), treemap);
        NextBin(mem, binned, ms, held, smallmap, treemap, nb, idx, leftbits);
        if !IsZero(leftbits) {
          LeastBitFinds(leftbits);
          var leastbit := LeastBit(leftbits);
          var j := ComputeBit2Idx(leastbit);
          TreeInMemory(mem, binned, ms, held, smallmap, treemap, j);
          t := Load(mem, TreeBinAt(ms, j));
          i, rest, rp := j, held.trees[j], [];
          StartAtRoot(mem, binned, ms, held, smallmap, treemap, j, nb);
        }
      }
      TreeInMemory(mem, binned, ms, held, smallmap, treemap, i);
      ghost var v0, rsize0 := v, rsize;
      v, rsize := SearchLeftmost(t, v, rsize, nb, i, rest, rp);
      SearchEnds(mem, binned, ms, held, smallmap, treemap, i, rest, rp, v0, rsize0, v, rsize, nb);
    }

    /** The search of `tmalloc_small`: a smallest chunk of the tree bins. */
    method FindSmallest(nb: nat) returns (v: int, rsize: nat)
      requires BinsValid() && 0 < nb <= MIN_LARGE_SIZE && !IsZero(treemap)
      ensures v > 0 && BestLarge(binned, nb, v) && binned[v] == nb + rsize
    {
      hide BinsHold, Chunks, TreeOk, At, Ok, Holds, Standing, Descending, NoneFit, AllFit, OnTrie, Sub, Beats, BinLo;
      hide BinBits, Part;
      LeastBitFinds(treemap);
      var leastbit := LeastBit(treemap);
      var i := ComputeBit2Idx(leastbit);
      TreeInMemory(mem, binned, ms, held, smallmap, treemap, i);
      FirstBin(mem, binned, ms, held, smallmap, treemap, nb, i);
      ghost var tree, n, path: seq<bool> := held.trees[i], held.trees[i], [];
      RootPart(tree);
      AllDescends(tree, nb);
      StandingStarts(binned, tree, nb);
      SearchReads(mem, binned, ms, held, smallmap, treemap, i, path);
      StandingTest(mem, binned, ms, tree, n, Empty, 0, TWO64 - nb, nb);
      var t := Load(mem, TreeBinAt(ms, i));
      v := t;
      rsize := Sub64(LoadHead(mem, t).size, nb);
      FirstFits(mem, binned, ms, n, nb);
      DescentOn(mem, binned, ms, held, smallmap, treemap, i, path, v, rsize, nb);
      t := LoadLeftmostChild(t, n);
      path := path + [n.left.Empty?];
      n := LeftmostChild(n);
      while t != 0
        invariant v > 0 && t == AddrOf(n) && (t == 0 <==> n.Empty?) && Part(tree, path, n)
        invariant Standing(binned, tree, n, Empty, v, rsize, nb) && Descending(n, v, rsize, nb)
        decreases n
      {
        PartOf(tree, path, n);
        SearchReads(mem, binned, ms, held, smallmap, treemap, i, path);
        StandingTest(mem, binned, ms, tree, n, Empty, v, rsize, nb);
        DescendingStays(n, v, rsize, mem, binned, ms, nb);
        var trem := Sub64(LoadHead(mem, t).size, nb);
        if trem < rsize {
          rsize := trem;
          v := t;
        }
        DescentOn(mem, binned, ms, held, smallmap, treemap, i, path, v, rsize, nb);
        t := LoadLeftmostChild(t, n);
        path := path + [n.left.Empty?];
        n := LeftmostChild(n);
      }
      BestAcross(mem, binned, ms, held, smallmap, treemap, nb, i, v, rsize);
    }

    // ----- unlink_chunk, insert_chunk -----

    method UnlinkChunk(p: int, s: nat, ghost out: set<int>)
      requires Holding(out) && p in binned && binned[p] == s
      modifies `mem, `smallmap, `treemap, `binned, `held
      ensures Holding(out + {p}) && binned == old(binned) - {p}
      ensures OnlyBins(old(mem), mem, old(binned), ms) && PayloadKept(old(mem), mem, Live(space))
    {
      hide BinsHold, HeapOk, OnlyBins, Live, PayloadKept, Headed, SegsOk;
      ghost var f := binned;
      if IsSmall(s) {
        UnlinkSmallChunk(p, s);
        BinnedFree(space, f, out);
        HeapUnderBins(old(mem), mem, space, ms, f);
        SegsUnderBins(old(mem), mem, space, ms, f);
      } else {
        UnlinkLarge(p, out);
      }
    }

    /** `unlink_large_chunk` seen from the heap. */
    method UnlinkLarge(p: int, ghost out: set<int>)
      requires Holding(out) && p in binned && !IsSmall(binned[p])
      modifies `mem, `treemap, `binned, `held
      ensures Holding(out + {p}) && binned == old(binned) - {p}
      ensures OnlyBins(old(mem), mem, old(binned), ms) && PayloadKept(old(mem), mem, Live(space))
    {
      hide BinsHold, HeapOk, OnlyBins, Live, PayloadKept, Headed, SegsOk;
      ghost var f := binned;
      UnlinkLargeChunk(p);
      BinnedFree(space, f, out);
      HeapUnderBins(old(mem), mem, space, ms, f);
      SegsUnderBins(old(mem), mem, space, ms, f);
    }

    /** `insert_large_chunk` seen from the heap. */
    method InsertLarge(p: int, s: nat)
      requires Holding({p}) && p in space.chunks && !space.chunks[p].cin && p != top && p != dv
      requires s == space.chunks[p].size
      requires !IsSmall(s)
      modifies `mem, `treemap, `binned, `held
      ensures Valid()
      ensures PayloadKept(old(mem), mem, Live(space))
    {
      hide BinsHold, HeapOk, OnlyBins, Live, PayloadKept, Chunks, Mapped, NextFits, Headed, SegsOk;
      ghost var f := binned[p := s];
      FreeOnesWith(space, binned, p, s);
      ChunksOf(mem, space, ms, f);
      FreeChunk(mem, space, ms, p);
      InsertLargeChunk(p, s);
      HeapUnderBins(old(mem), mem, space, ms, f);
      SegsUnderBins(old(mem), mem, space, ms, f);
    }

    method InsertChunk(p: int, s: nat)
      requires Holding({p}) && p in space.chunks && !space.chunks[p].cin && p != top && p != dv
      requires s == space.chunks[p].size
      modifies `mem, `smallmap, `treemap, `binned, `held
      ensures Valid()
      ensures PayloadKept(old(mem), mem, Live(space))
    {
      hide BinsHold, HeapOk, OnlyBins, Live, PayloadKept, Chunks, Mapped, NextFits, Headed, SegsOk;
      ghost var f := binned[p := s];
      FreeOnesWith(space, binned, p, s);
      ChunksOf(mem, space, ms, f);
      FreeChunk(mem, space, ms, p);
      if IsSmall(s) {
        InsertSmallChunk(p, s);
      } else {
        InsertLargeChunk(p, s);
      }
      HeapUnderBins(old(mem), mem, space, ms, f);
      SegsUnderBins(old(mem), mem, space, ms, f);
    }

    // ----- taking chunks for use -----

    /** `set_inuse_and_pinuse` on a chunk that has just been unlinked. */
    method UseWhole(p: int, s: nat)
      requires Holding({p}) && p in space.chunks && !space.chunks[p].cin && p != top && p != dv
      requires s == space.chunks[p].size
      modifies `mem, `space
      ensures SegmentsKept()
      ensures Valid() && Live(space) == old(Live(space))[p := s] && p !in old(Live(space))
      ensures PayloadKept(old(mem), mem, old(Live(space)))
    {
      hide BinsHold, HeapOk, Live, PayloadKept, Mapped, Others, BinnedOk, Emptied, Replaceable, Stretch, One, Two;
      hide OneSpace, TwoSpace, Headed, BinsAbove, SegsAbove, SegsOk;
      FreeFacts(mem, space, ms, p);
      ghost var m0 := mem;
      mem := Store(mem, p + HEAD, Head(s, true, true));
      var n := LoadHead(mem, p + s);
      mem := Store(mem, p + s + HEAD, n.(pin := true));
      TakenReady(m0, space, ms, binned, p, p);
      OneEdit(m0, mem, space, ms, p, p + s, true, top, dv, binned, {p}, held, smallmap, treemap);
      space := OneSpace(space, p, p + s, true, top, dv);
    }

    /** `set_size_and_pinuse_of_inuse_chunk` on the front, `set_size_and_pinuse_of_free_chunk` on the rest. */
    method CutUsedFirst(p: int, nb: nat, r: int, rsize: nat)
      requires CutWords(mem, space, p, r, r + rsize) && r == p + nb && nb >= 16 && rsize >= 16 && r != space.top
      modifies `mem
      ensures Rewritten(old(mem), mem, p, r + rsize)
      ensures p in space.chunks && nb > 0 && rsize > 0
      ensures TwoTagged(old(mem), mem, space.chunks, p, r, r + rsize, false, space.top)
    {
      mem := Store(mem, p + HEAD, Head(nb, true, true));
      mem := Store(mem, r + HEAD, Head(rsize, false, true));
      mem := Store(mem, r + rsize, Data(rsize));
    }

    /** The same in the other order. */
    method CutFreeFirst(p: int, nb: nat, r: int, rsize: nat)
      requires CutWords(mem, space, p, r, r + rsize) && r == p + nb && nb >= 16 && rsize >= 16 && r != space.top
      modifies `mem
      ensures Rewritten(old(mem), mem, p, r + rsize)
      ensures p in space.chunks && nb > 0 && rsize > 0
      ensures TwoTagged(old(mem), mem, space.chunks, p, r, r + rsize, false, space.top)
    {
      mem := Store(mem, r + HEAD, Head(rsize, false, true));
      mem := Store(mem, r + rsize, Data(rsize));
      mem := Store(mem, p + HEAD, Head(nb, true, true));
    }

    /** The first `nb` bytes of a chunk that has just been unlinked go into use; the rest becomes a free chunk. */
    method UsePart(p: int, s: nat, nb: nat)
      requires Holding({p}) && p in space.chunks && !space.chunks[p].cin && p != top && p != dv
      requires s == space.chunks[p].size
      requires MIN_CHUNK_SIZE <= nb && nb + MIN_CHUNK_SIZE <= s && nb % 16 == 0
      modifies `mem, `space
      ensures SegmentsKept()
      ensures Holding({p + nb}) && Live(space) == old(Live(space))[p := nb] && p !in old(Live(space))
      ensures p + nb in space.chunks && !space.chunks[p + nb].cin && p + nb != top && p + nb != dv
      ensures space.chunks[p + nb].size == s - nb
      ensures PayloadKept(old(mem), mem, old(Live(space)))
    {
      hide Rewritten, TwoTagged, BinsHold, HeapOk, Live, PayloadKept, Mapped, Others, BinnedOk, Emptied, Replaceable;
      hide Stretch, One, Two, OneSpace, TwoSpace, Headed, BinsAbove, SegsAbove, SegsOk;
      TakenReady(mem, space, ms, binned, p, p + nb);
      ghost var m0 := mem;
      var r, rsize := p + nb, s - nb;
      CutFacts(mem, space, ms, p, r, p + s);
      CutUsedFirst(p, nb, r, rsize);
      TwoEdit(m0, mem, space, ms, p, r, p + s, false, top, dv, binned, {p}, held, smallmap, treemap);
      space := TwoSpace(space, p, r, p + s, false, top, dv);
    }

    /** `replace_dv` */
    method ReplaceDv(r: int, rsize: nat)
      requires Holding({r}) && r in space.chunks && !space.chunks[r].cin && r != top && r != dv
      requires rsize == space.chunks[r].size
      requires IsSmall(dvsize)
      modifies `mem, `smallmap, `dv, `dvsize, `binned, `held, `space
      ensures SegmentsKept()
      ensures Valid() && Live(space) == old(Live(space)) && dv == r
      ensures PayloadKept(old(mem), mem, old(Live(space)))
    {
      hide BinnedOk, HasHead, BinsHold, HeapOk, Live, PayloadKept, Mapped, OnlyBins, Chunks, Headed, SegsOk;
      var dvs := dvsize;
      if dvs != 0 {
        DvFacts(mem, space, ms, binned, r);
        ghost var f := binned[dv := dvs];
        ChunksOf(mem, space, ms, f);
        FreeChunk(mem, space, ms, dv);
        InsertSmallChunk(dv, dvs);
        HeapUnderBins(old(mem), mem, space, ms, f);
        SegsUnderBins(old(mem), mem, space, ms, f);
      } else {
        NoDv(mem, space, ms);
        NothingWritten(mem, space);
      }
      FreeChunk(mem, space, ms, r);
      DvReplaced(mem, space, ms, binned, r);
      dvsize := rsize;
      dv := r;
      space := space.(dv := r);
    }

    // ----- tmalloc_large, tmalloc_small -----

    /** Takes a best fit for a large request from the tree bins, unless `dv` fits at least as tightly. */
    method TmallocLarge(nb: nat) returns (at: int)
      requires Valid() && MIN_LARGE_SIZE <= nb < TWO64 && nb % 16 == 0
      modifies `mem, `smallmap, `treemap, `binned, `held, `space
      ensures SegmentsKept()
      ensures Valid() && PayloadKept(old(mem), mem, old(Live(space)))
      ensures at == 0 ==>
        unchanged(this) && forall q :: q in binned && binned[q] >= nb ==> nb <= dvsize <= binned[q]
      ensures at != 0 ==> var p := at - 16;
        && BestFit(old(binned), nb, p) && (dvsize >= nb ==> old(binned)[p] < dvsize)
        && p !in old(Live(space)) && Live(space) == old(Live(space))[p := TakenSize(old(binned)[p], nb)]
    {
      hide BinsHold, HeapOk, Live, PayloadKept, BinnedOk, OnlyBins, Headed, SegsOk;
      var v, rsize := FindLarge(nb);
      FieldBounds(mem, space, ms);
      if v != 0 { BinnedPlace(mem, space, ms, binned, {}, v); }
      if v != 0 && rsize < Sub64(dvsize, nb) {
        assert OkAddress(v);
        var r := v + nb;
        assert LoadHead(mem, v).size == rsize + nb && v < r;
        ghost var m0, l := mem, Live(space);
        UnlinkLarge(v, {});
        assert {} + {v} == {v};
        ghost var m1 := mem;
        if rsize < MIN_CHUNK_SIZE {
          UseWhole(v, rsize + nb);
          KeptTrans(m0, m1, mem, l);
        } else {
          UsePart(v, rsize + nb, nb);
          KeptTrans(m0, m1, mem, l);
          ghost var m2 := mem;
          InsertChunk(r, rsize);
          KeptPart(m2, mem, Live(space), l);
          KeptTrans(m0, m2, mem, l);
        }
        return v + 16;
      }
      NothingWritten(mem, space);
      return 0;
    }

    /** Takes a smallest chunk of the tree bins for a small request; what is left of it becomes `dv`. */
    method TmallocSmall(nb: nat) returns (at: int)
      requires Valid() && MIN_CHUNK_SIZE <= nb < MIN_LARGE_SIZE && nb % 16 == 0 && !IsZero(treemap) && IsSmall(dvsize)
      modifies `mem, `smallmap, `treemap, `dv, `dvsize, `binned, `held, `space
      ensures SegmentsKept()
      ensures Valid() && PayloadKept(old(mem), mem, old(Live(space)))
      ensures at != 0 && at - 16 in old(binned) && BestLarge(old(binned), nb, at - 16)
      ensures at - 16 !in old(Live(space)) && dv == LeftAsDv(old(dv), old(binned)[at - 16], nb, at - 16)
      ensures Live(space) == old(Live(space))[at - 16 := TakenSize(old(binned)[at - 16], nb)]
    {
      hide BinsHold, HeapOk, Live, PayloadKept, BinnedOk, OnlyBins, Headed, SegsOk;
      var v, rsize := FindSmallest(nb);
      FieldBounds(mem, space, ms);
      BinnedPlace(mem, space, ms, binned, {}, v);
      assert OkAddress(v);
      var r := v + nb;
      assert LoadHead(mem, v).size == rsize + nb && v < r;
      ghost var m0, l := mem, Live(space);
      UnlinkLarge(v, {});
      assert {} + {v} == {v};
      ghost var m1 := mem;
      if rsize < MIN_CHUNK_SIZE {
        UseWhole(v, rsize + nb);
        KeptTrans(m0, m1, mem, l);
      } else {
        UsePartKeepRest(v, rsize + nb, nb);
        KeptTrans(m0, m1, mem, l);
      }
      return v + 16;
    }

    /** Splits an unlinked chunk; the rest becomes `dv`. */
    method UsePartKeepRest(p: int, s: nat, nb: nat)
      requires Holding({p}) && p in space.chunks && !space.chunks[p].cin && p != top && p != dv
      requires s == space.chunks[p].size
      requires MIN_CHUNK_SIZE <= nb && nb + MIN_CHUNK_SIZE <= s && nb % 16 == 0 && IsSmall(dvsize)
      modifies `mem, `smallmap, `dv, `dvsize, `binned, `held, `space
      ensures SegmentsKept()
      ensures Valid() && Live(space) == old(Live(space))[p := nb] && p !in old(Live(space)) && dv == p + nb
      ensures PayloadKept(old(mem), mem, old(Live(space)))
    {
      hide BinsHold, HeapOk, Live, PayloadKept, BinnedOk, Headed, SegsOk;
      ghost var m0, l := mem, Live(space);
      UsePart(p, s, nb);
      ghost var m1 := mem;
      ReplaceDv(p + nb, s - nb);
      KeptPart(m1, mem, Live(space), l);
      KeptTrans(m0, m1, mem, l);
    }

    /** `unlink_first_small_chunk` seen from the heap. */
    method UnlinkFirst(b: int, p: int, i: nat)
      requires Valid() && i < NSMALLBINS && b == SmallBinAt(ms, i) && |held.small| == NSMALLBINS && held.small[i] != []
      requires p == held.small[i][0]
      requires p in binned
      modifies `mem, `smallmap, `binned, `held
      ensures Holding({p}) && binned == old(binned) - {p}
      ensures PayloadKept(old(mem), mem, Live(space))
    {
      hide BinsHold, HeapOk, OnlyBins, Live, PayloadKept, Headed, SegsOk;
      ghost var f := binned;
      UnlinkFirstSmallChunk(b, p, i);
      BinnedFree(space, f, {});
      HeapUnderBins(old(mem), mem, space, ms, f);
      SegsUnderBins(old(mem), mem, space, ms, f);
    }

    /** A chunk from the bins has been taken for a request; what is left of it becomes `dv` when the request is
        small. */
    twostate predicate TookBinned(nb: nat, p: int)
      reads this
    {
      && BestFit(old(binned), nb, p) && p !in old(Live(space))
      && Live(space) == old(Live(space))[p := TakenSize(old(binned)[p], nb)]
      && dv == if IsSmall(nb) then LeftAsDv(old(dv), old(binned)[p], nb, p) else old(dv)
    }

    /** What a successful allocation does to what the clients hold. */
    twostate predicate Gave(nb: nat, p: int)
      reads this
    {
      && p !in old(Live(space)) && p in Live(space) && nb <= Live(space)[p] < nb + MIN_CHUNK_SIZE
      && Live(space) == old(Live(space))[p := Live(space)[p]]
    }

    /** The small bin of size `8 * idx`, or the one after it, whichever is in use first. */
    method ExactBin(idx: nat, smallbits: Word32) returns (i: nat)
      requires idx + 1 < NSMALLBINS && smallbits == Shr(smallmap, idx) && !IsZero(And(smallbits, LOW_TWO))
      ensures idx <= i <= idx + 1 && smallmap[i] && forall j :: idx <= j < i ==> !smallmap[j]
    {
      LowTwo(smallbits);
      LowBits(smallmap, idx);
      i := idx + if Not(smallbits)[0] then 1 else 0;
    }

    /** The next small bin in use above `idx`. */
    method NextSmallBin(idx: nat, smallbits: Word32) returns (i: nat)
      requires idx < NSMALLBINS && smallbits == Shr(smallmap, idx) && !IsZero(smallbits)
      requires IsZero(And(smallbits, LOW_TWO))
      ensures idx < i < NSMALLBINS && smallmap[i] && forall j :: idx <= j < i ==> !smallmap[j]
    {
      hide And, LeftBits, Shl, Shr, LeastBit;
      LowTwo(smallbits);
      var leftbits := And(Shl(smallbits, idx), LeftBits(Idx2Bit(idx)));
      NextSmall(smallmap, idx, leftbits);
      LeastBitFinds(leftbits);
      var leastbit := LeastBit(leftbits);
      i := ComputeBit2Idx(leastbit);
    }

    /** A small request is served from the smallest tree chunk when no small bin has a fit. */
    method MallocFromTree(nb: nat, ghost idx: nat) returns (at: int)
      requires Valid() && MIN_CHUNK_SIZE <= nb < MIN_LARGE_SIZE && nb % 16 == 0 && nb == 8 * idx
      requires nb > dvsize && !IsZero(treemap) && IsZero(Shr(smallmap, idx))
      modifies `mem, `smallmap, `treemap, `dv, `dvsize, `binned, `held, `space
      ensures SegmentsKept()
      ensures Valid() && PayloadKept(old(mem), mem, old(Live(space)))
      ensures at != 0 && TookBinned(nb, at - 16)
    {
      hide BinsHold, HeapOk, Live, PayloadKept, BinnedOk, Headed, SegsOk, BestFit, BestLarge;
      ghost var f, h, sm, tm, m0 := binned, held, smallmap, treemap, mem;
      at := TmallocSmall(nb);
      LargeIsBest(m0, f, ms, h, sm, tm, idx, at - 16);
    }

    /** The part of `mspace_malloc` that serves a small request from the bins. Null, with nothing changed, when `dv`
        should serve it or no binned chunk can. */
    method MallocSmall(nb: nat) returns (at: int)
      requires Valid() && MIN_CHUNK_SIZE <= nb < MIN_LARGE_SIZE && nb % 16 == 0
      modifies `mem, `smallmap, `treemap, `dv, `dvsize, `binned, `held, `space
      ensures SegmentsKept()
      ensures Valid() && PayloadKept(old(mem), mem, old(Live(space)))
      ensures at == 0 ==> unchanged(this) && Passed(binned, dvsize, nb)
      ensures at != 0 ==> Taken(old(space), nb, at - 16, space)
    {
      hide BinsHold, HeapOk, Live, PayloadKept, BinnedOk, And, Shr, IsZero, Headed, SegsOk, BestFit, NoFit, NoExact;
      ghost var m0, s, f := mem, space, binned;
      at := 0;
      var idx := nb / 8;
      var smallbits := Shr(smallmap, idx);
      NothingWritten(mem, space);
      if !IsZero(And(smallbits, LOW_TWO)) {
        var i := ExactBin(idx, smallbits);
        at := TakeFirst(i, idx, nb);
      } else if nb <= dvsize {
        ExactBinEmpty(mem, binned, ms, held, smallmap, treemap, idx);
      } else {
        if !IsZero(smallbits) {
          var i := NextSmallBin(idx, smallbits);
          at := TakeNext(i, idx, nb);
        } else if !IsZero(treemap) {
          at := MallocFromTree(nb, idx);
        } else {
          NothingBinnedFits(mem, binned, ms, held, smallmap, treemap, idx);
        }
      }
      if at != 0 { TookIs(m0, s, ms, f, nb, at - 16, space); }
    }

    /** Remainderless fit to a small bin. */
    method TakeFirst(i: nat, ghost idx: nat, ghost nb: nat) returns (at: int)
      requires Valid() && idx <= i <= idx + 1 && i < NSMALLBINS && nb == 8 * idx && smallmap[i] && nb % 16 == 0
      requires forall j :: idx <= j < i ==> !smallmap[j]
      modifies `mem, `smallmap, `treemap, `dv, `dvsize, `binned, `held, `space
      ensures SegmentsKept()
      ensures Valid() && PayloadKept(old(mem), mem, old(Live(space)))
      ensures at != 0 && TookBinned(nb, at - 16) && old(binned)[at - 16] == nb
      ensures |old(held).small| == NSMALLBINS && old(held).small[idx] != [] && at - 16 == old(held).small[idx][0]
    {
      hide BinsHold, HeapOk, Live, PayloadKept, BinnedOk, Headed, SegsOk;
      FirstOfBin(mem, binned, ms, held, smallmap, treemap, i);
      var b := SmallBinAt(ms, i);
      var p := Load(mem, b + FD);
      assert LoadHead(mem, p).size == 8 * i;
      LowestBinFits(mem, binned, ms, held, smallmap, treemap, idx, i, p);
      BinnedPlace(mem, space, ms, binned, {}, p);
      ghost var m0, l := mem, Live(space);
      UnlinkFirst(b, p, i);
      ghost var m1 := mem;
      UseWhole(p, 8 * i);
      KeptTrans(m0, m1, mem, l);
      return p + 16;
    }

    /** A chunk of the next small bin in use; what is left of it becomes `dv` when it is large enough. */
    method TakeNext(i: nat, ghost idx: nat, nb: nat) returns (at: int)
      requires Valid() && idx < i < NSMALLBINS && nb == 8 * idx && smallmap[i] && MIN_CHUNK_SIZE <= nb && nb % 16 == 0
      requires (forall j :: idx <= j < i ==> !smallmap[j]) && IsSmall(dvsize)
      modifies `mem, `smallmap, `treemap, `dv, `dvsize, `binned, `held, `space
      ensures SegmentsKept()
      ensures Valid() && PayloadKept(old(mem), mem, old(Live(space)))
      ensures at != 0 && TookBinned(nb, at - 16)
    {
      hide BinsHold, HeapOk, Live, PayloadKept, BinnedOk, Headed, SegsOk;
      FirstOfBin(mem, binned, ms, held, smallmap, treemap, i);
      var b := SmallBinAt(ms, i);
      var p := Load(mem, b + FD);
      assert LoadHead(mem, p).size == 8 * i;
      LowestBinFits(mem, binned, ms, held, smallmap, treemap, idx, i, p);
      BinnedPlace(mem, space, ms, binned, {}, p);
      ghost var m0, l := mem, Live(space);
      UnlinkFirst(b, p, i);
      ghost var m1 := mem;
      var rsize := 8 * i - nb;
      if rsize < MIN_CHUNK_SIZE {
        UseWhole(p, 8 * i);
      } else {
        UsePartKeepRest(p, 8 * i, nb);
      }
      KeptTrans(m0, m1, mem, l);
      return p + 16;
    }

    // ----- mspace_malloc -----

    /** Serves a request from `dv`. */
    method MallocFromDv(nb: nat) returns (at: int)
      requires Valid() && MIN_CHUNK_SIZE <= nb <= dvsize && nb % 16 == 0
      modifies `mem, `dv, `dvsize, `space
      ensures SegmentsKept()
      ensures Valid() && PayloadKept(old(mem), mem, old(Live(space)))
      ensures at != 0 && at - 16 == old(dv) && dv == DvTaken(old(space), nb, old(dv)) && old(dv) !in old(Live(space))
      ensures Live(space) == old(Live(space))[old(dv) := TakenSize(old(dvsize), nb)]
    {
      hide HeapOk, BinsHold, Live, PayloadKept, BinnedOk, Headed, SegsOk;
      var p := dv;
      FieldBounds(mem, space, ms);
      NoNullChunk(mem, space, ms);
      FreeChunk(mem, space, ms, p);
      if dvsize - nb >= MIN_CHUNK_SIZE {
        SplitDv(nb);
      } else {
        ExhaustDv();
      }
      return p + 16;
    }

    method SplitDv(nb: nat)
      requires Valid() && MIN_CHUNK_SIZE <= nb && nb + MIN_CHUNK_SIZE <= dvsize && nb % 16 == 0 && dv != 0
      modifies `mem, `dv, `dvsize, `space
      ensures SegmentsKept()
      ensures Valid() && PayloadKept(old(mem), mem, old(Live(space)))
      ensures Live(space) == old(Live(space))[old(dv) := nb] && old(dv) !in old(Live(space)) && dv == old(dv) + nb
    {
      hide Rewritten, TwoTagged, BinsHold, HeapOk, Live, PayloadKept, Mapped, Others, BinnedOk, NextFits, Emptied;
      hide Replaceable, Stretch, One, Two, OneSpace, TwoSpace, Headed, BinsAbove, SegsAbove, SegsOk;
      ghost var m0, hi := mem, dv + dvsize;
      var rsize := dvsize - nb;
      var p := dv;
      DvReady(mem, space, ms, binned, p + nb);
      CutFacts(mem, space, ms, p, p + nb, hi);
      dv := p + nb;
      var r := dv;
      dvsize := rsize;
      CutFreeFirst(p, nb, r, rsize);
      TwoEdit(m0, mem, space, ms, p, r, hi, false, top, r, binned, {}, held, smallmap, treemap);
      space := TwoSpace(space, p, r, hi, false, top, r);
    }

    method ExhaustDv()
      requires Valid() && dv != 0
      modifies `mem, `dv, `dvsize, `space
      ensures SegmentsKept()
      ensures Valid() && PayloadKept(old(mem), mem, old(Live(space)))
      ensures Live(space) == old(Live(space))[old(dv) := old(dvsize)] && old(dv) !in old(Live(space)) && dv == 0
    {
      hide BinsHold, HeapOk, Live, PayloadKept, Mapped, Others, BinnedOk, NextFits, Emptied, Replaceable, Stretch, One;
      hide Two, OneSpace, TwoSpace, Headed, BinsAbove, SegsAbove, SegsOk;
      ghost var m0 := mem;
      FieldBounds(mem, space, ms);
      var p := dv;
      DvReady(mem, space, ms, binned, p);
      FreeFacts(mem, space, ms, p);
      var dvs := dvsize;
      dvsize := 0;
      dv := 0;
      mem := Store(mem, p + HEAD, Head(dvs, true, true));
      var n := LoadHead(mem, p + dvs);
      mem := Store(mem, p + dvs + HEAD, n.(pin := true));
      OneEdit(m0, mem, space, ms, p, p + dvs, true, top, 0, binned, {}, held, smallmap, treemap);
      space := OneSpace(space, p, p + dvs, true, top, 0);
    }

    /** Serves a request from the front of `top`. */
    method MallocFromTop(nb: nat) returns (at: int)
      requires Valid() && MIN_CHUNK_SIZE <= nb < topsize && nb % 16 == 0
      modifies `mem, `top, `topsize, `space
      ensures SegmentsKept()
      ensures Valid() && PayloadKept(old(mem), mem, old(Live(space)))
      ensures at != 0 && at - 16 == old(top) && top == old(top) + nb
      ensures old(top) !in old(Live(space)) && Live(space) == old(Live(space))[old(top) := nb]
    {
      hide BinsHold, HeapOk, Live, PayloadKept, Mapped, Others, BinnedOk, NextFits, Emptied, Replaceable, Stretch, One;
      hide Two, OneSpace, TwoSpace, Headed, BinsAbove, SegsAbove, SegsOk;
      TopReady(mem, space, ms, binned, top + nb);
      TopFacts(mem, space, ms);
      ghost var m0, hi := mem, top + topsize;
      topsize := topsize - nb;
      var rsize := topsize;
      var p := top;
      top := p + nb;
      var r := top;
      MappedAt(mem, p, hi + TOP_FOOT_SIZE, r + HEAD);
      mem := Store(mem, r + HEAD, Head(rsize, false, true));
      mem := Store(mem, p + HEAD, Head(nb, true, true));
      TwoEdit(m0, mem, space, ms, p, r, hi, false, r, dv, binned, {}, held, smallmap, treemap);
      space := TwoSpace(space, p, r, hi, false, r, dv);
      return p + 16;
    }

    /** The part of `mspace_malloc` that serves a request that is not small from the bins. */
    method MallocLarge(nb: nat) returns (at: int)
      requires Valid() && MIN_LARGE_SIZE <= nb < TWO64 && nb % 16 == 0
      modifies `mem, `smallmap, `treemap, `dv, `dvsize, `binned, `held, `space
      ensures SegmentsKept()
      ensures Valid() && PayloadKept(old(mem), mem, old(Live(space)))
      ensures at == 0 ==> unchanged(this) && Passed(binned, dvsize, nb)
      ensures at != 0 ==> Taken(old(space), nb, at - 16, space)
    {
      hide BinsHold, HeapOk, Live, PayloadKept, BinnedOk, Chunks, Headed, SegsOk;
      ghost var m0, s, f := mem, space, binned;
      at := 0;
      NothingWritten(mem, space);
      if !IsZero(treemap) {
        at := TmallocLarge(nb);
        if at != 0 { TookIs(m0, s, ms, f, nb, at - 16, space); }
      } else {
        NothingLarge(mem, binned, ms, held, smallmap, treemap, nb);
      }
    }

    /** The part of `mspace_malloc` that serves a request from `dv` or `top`. */
    method MallocFromRest(nb: nat) returns (at: int)
      requires Valid() && MIN_CHUNK_SIZE <= nb && (nb < MAX_SIZE_T ==> nb % 16 == 0) && Passed(binned, dvsize, nb)
      modifies `mem, `dv, `dvsize, `top, `topsize, `space
      ensures SegmentsKept()
      ensures Valid() && PayloadKept(old(mem), mem, old(Live(space)))
      ensures at == 0 ==> unchanged(this)
      ensures at == 0 <==> NothingFree(old(space), nb)
      ensures at != 0 ==> Taken(old(space), nb, at - 16, space)
    {
      hide BinsHold, HeapOk, Live, PayloadKept, BinnedOk, Chunks, Headed, SegsOk, Serves, NothingFree, Passed;
      at := 0;
      NothingWritten(mem, space);
      FieldBounds(mem, space, ms);
      NoNullChunk(mem, space, ms);
      ServedByRest(mem, space, ms, binned, nb, dvsize);
      if nb <= dvsize {
        at := MallocFromDv(nb);
      } else if nb < topsize {
        at := MallocFromTop(nb);
      }
    }

    /** `mspace_malloc`, with `sys_alloc` returning null. It fails exactly when no free chunk is large enough, and says
        which one serves otherwise; the newest chunk of a small bin does. */
    method Malloc(bytes: nat) returns (at: int)
      requires Valid() && bytes < TWO64
      modifies `mem, `smallmap, `treemap, `dv, `dvsize, `top, `topsize, `binned, `held, `space
      ensures SegmentsKept()
      ensures Valid() && PayloadKept(old(mem), mem, old(Live(space)))
      ensures at == 0 ==> unchanged(this)
      ensures at == 0 <==> NothingFree(old(space), NeedFor(bytes))
      ensures at != 0 ==> Taken(old(space), NeedFor(bytes), at - 16, space) && Gave(NeedFor(bytes), at - 16)
    {
      hide BinsHold, HeapOk, Live, PayloadKept, BinnedOk, Chunks, Headed, SegsOk, Serves, NothingFree, BestFit, Passed;
      hide TakenSize, NoFit, SameRegions, LeftAsDv;
      at := 0;
      var nb: nat;
      ghost var space0 := space;
      NothingWritten(mem, space);
      FieldBounds(mem, space, ms);
      if bytes <= MAX_SMALL_REQUEST {
        nb := Request2Size(bytes);
        at := MallocSmall(nb);
      } else if bytes >= MAX_REQUEST {
        nb := MAX_SIZE_T;
        TreeInMemory(mem, binned, ms, held, smallmap, treemap, 0);
        HugeFitsNowhere(mem, binned, ms, nb);
        AllPassed(binned, dvsize, nb);
      } else {
        nb := PadRequest(bytes);
        at := MallocLarge(nb);
      }
      if at == 0 {
        at := MallocFromRest(nb);
      } else {
        ServesSomething(space0, nb, at - 16);
      }
      if at != 0 { TakenFits(space0, nb, at - 16); }
    }

    // ----- giving chunks back: the branches that mspace_free and dispose_chunk share -----

    /** `set_size_and_pinuse_of_free_chunk`, where the next chunk knows that the one before it is free, or there is
        none. */
    method SetFreeChunk(lo: int, size: nat)
      requires lo in space.chunks && space.chunks[lo].pin && lo + HEAD in mem && lo + size in mem && size >= 16
      requires lo + size in space.chunks ==>
                 HasHead(mem, lo + size, space.chunks[lo + size].size, space.chunks[lo + size].cin, false)
      requires lo + size !in space.chunks ==> lo + size + HEAD in mem
      modifies `mem
      ensures Rewritten(old(mem), mem, lo, lo + size)
      ensures OneTagged(old(mem), mem, space.chunks, lo, lo + size, false, space.top)
    {
      mem := Store(mem, lo + HEAD, Head(size, false, true));
      mem := Store(mem, lo + size, Data(size));
    }

    /** `set_free_with_pinuse`: the next chunk stays in use. */
    method SetFree(lo: int, psize: nat, next: int, ghost p: int, ghost out: set<int>)
      requires Holding(out) && p in Live(space) && Neighbours(space, p, lo) && BackOut(space, p, lo, out) && lo != dv
      requires next == NextOf(space, p) && UsedAt(space, next) && psize == next - lo
      modifies `mem, `space
      ensures SegmentsKept()
      ensures space == FreedSpace(old(space), p, lo)
      ensures Holding({lo}) && lo in space.chunks && !space.chunks[lo].cin && space.chunks[lo].size == psize
      ensures lo != top && lo != dv
      ensures Live(space) == old(Live(space)) - {p} && PayloadKept(old(mem), mem, Live(space))
    {
      hide BinsHold, HeapOk, PayloadKept, Mapped, Others, BinnedOk, NextFits, Emptied, Replaceable, Stretch, OutOf;
      hide Live, Around, BackOut, One, Two, OneSpace, TwoSpace, Headed, BinsAbove;
      hide SegsAbove, SegsOk, FreedSpace;
      AroundFrom(mem, space, ms, p, lo);
      FreedIs(mem, space, ms, p, lo);
      BackIsAll(mem, space, ms, p, lo, out);
      FieldsStay(mem, space, ms, p, lo);
      FreeReady(mem, space, ms, binned, p, lo, out);
      AroundStarts(mem, space, ms, p, lo);
      OwnOutside(mem, space, ms, p, lo);
      FreeWords(mem, space, ms, p, lo);
      ghost var m0 := mem;
      var n := LoadHead(mem, next);
      mem := Store(mem, next + HEAD, n.(pin := false));
      mem := Store(mem, lo + HEAD, Head(psize, false, true));
      mem := Store(mem, lo + psize, Data(psize));
      OneEdit(m0, mem, space, ms, lo, next, false, top, dv, binned, out, held, smallmap, treemap);
      space := OneSpace(space, lo, next, false, top, dv);
    }

    /** The next chunk is in use and the one before is `dv`, which grows. */
    method GrowDvOver(lo: int, psize: nat, next: int, ghost p: int)
      requires Valid() && p in Live(space) && Neighbours(space, p, lo) && lo == dv
      requires next == NextOf(space, p) && UsedAt(space, next) && psize == next - lo
      modifies `mem, `dvsize, `space
      ensures SegmentsKept()
      ensures space == FreedSpace(old(space), p, lo)
      ensures Valid()
      ensures Live(space) == old(Live(space)) - {p} && PayloadKept(old(mem), mem, Live(space))
    {
      hide BinsHold, HeapOk, PayloadKept, Mapped, Others, BinnedOk, NextFits, Emptied, Replaceable, Stretch, OutOf;
      hide Live, Around, BackOut, One, Two, OneSpace, TwoSpace, Headed, BinsAbove;
      hide SegsAbove, SegsOk, FreedSpace;
      AroundFrom(mem, space, ms, p, lo);
      FreedIs(mem, space, ms, p, lo);
      NothingOut(space, p, lo);
      BackIsAll(mem, space, ms, p, lo, {});
      FieldsStay(mem, space, ms, p, lo);
      FreeReady(mem, space, ms, binned, p, lo, {});
      AroundStarts(mem, space, ms, p, lo);
      OwnOutside(mem, space, ms, p, lo);
      FreeWords(mem, space, ms, p, lo);
      ghost var m0 := mem;
      dvsize := psize;
      var n := LoadHead(mem, next);
      mem := Store(mem, next + HEAD, n.(pin := false));
      mem := Store(mem, lo + HEAD, Head(psize, false, true));
      mem := Store(mem, lo + psize, Data(psize));
      OneEdit(m0, mem, space, ms, lo, next, false, top, dv, binned, {}, held, smallmap, treemap);
      space := OneSpace(space, lo, next, false, top, dv);
    }

    /** The head of a chunk that reaches the end of its segment as `top`. */
    method SetTopHead(lo: int, size: nat)
      requires lo in space.chunks && space.chunks[lo].pin && lo + HEAD in mem && size > 0 && lo + size !in space.chunks
      modifies `mem
      ensures Rewritten(old(mem), mem, lo, lo + size)
      ensures OneTagged(old(mem), mem, space.chunks, lo, lo + size, false, lo)
    {
      mem := Store(mem, lo + HEAD, Head(size, false, true));
    }

    /** The next chunk is `top`, which grows downwards. */
    method MergeIntoTop(lo: int, psize: nat, ghost p: int, ghost out: set<int>)
      requires Holding(out) && p in Live(space) && Neighbours(space, p, lo) && BackOut(space, p, lo, out)
      requires NextOf(space, p) == top && psize == top - lo
      modifies `mem, `top, `topsize, `dv, `dvsize, `space
      ensures SegmentsKept()
      ensures space == FreedSpace(old(space), p, lo)
      ensures Valid()
      ensures Live(space) == old(Live(space)) - {p} && PayloadKept(old(mem), mem, Live(space))
    {
      hide Rewritten, OneTagged, BinsHold, HeapOk, PayloadKept, Mapped, Others, BinnedOk, NextFits, Emptied;
      hide Replaceable, Stretch, OutOf, Live, Around, BackOut, One, Two, OneSpace, TwoSpace, Headed, BinsAbove;
      hide SegsAbove, SegsOk, FreedSpace;
      AroundFrom(mem, space, ms, p, lo);
      FreedIs(mem, space, ms, p, lo);
      BackIsAll(mem, space, ms, p, lo, out);
      FreeReady(mem, space, ms, binned, p, lo, out);
      AroundStarts(mem, space, ms, p, lo);
      OwnOutside(mem, space, ms, p, lo);
      FreeWords(mem, space, ms, p, lo);
      TopEnd(mem, space, ms, p, lo);
      ghost var m0, hi := mem, top + topsize;
      topsize := topsize + psize;
      var tsize := topsize;
      top := lo;
      SetTopHead(lo, tsize);
      if lo == dv {
        dv := 0;
        dvsize := 0;
      }
      OneEdit(m0, mem, space, ms, lo, hi, false, lo, dv, binned, out, held, smallmap, treemap);
      space := OneSpace(space, lo, hi, false, lo, dv);
    }

    /** The next chunk is `dv`, which grows downwards. */
    method MergeIntoDv(lo: int, psize: nat, ghost p: int, ghost out: set<int>)
      requires Holding(out) && p in Live(space) && Neighbours(space, p, lo) && BackOut(space, p, lo, out)
      requires NextOf(space, p) == dv && psize == dv - lo && dv != 0
      modifies `mem, `dv, `dvsize, `space
      ensures SegmentsKept()
      ensures space == FreedSpace(old(space), p, lo)
      ensures Valid()
      ensures Live(space) == old(Live(space)) - {p} && PayloadKept(old(mem), mem, Live(space))
    {
      hide Rewritten, OneTagged, BinsHold, HeapOk, PayloadKept, Mapped, Others, BinnedOk, NextFits, Emptied;
      hide Replaceable, Stretch, OutOf, Live, Around, BackOut, One, Two, OneSpace, TwoSpace, Headed, BinsAbove;
      hide SegsAbove, SegsOk, FreedSpace;
      AroundFrom(mem, space, ms, p, lo);
      FreedIs(mem, space, ms, p, lo);
      BackIsAll(mem, space, ms, p, lo, out);
      FreeReady(mem, space, ms, binned, p, lo, out);
      AroundStarts(mem, space, ms, p, lo);
      OwnOutside(mem, space, ms, p, lo);
      FreeWords(mem, space, ms, p, lo);
      DvEnd(mem, space, ms, p, lo);
      ghost var m0, hi := mem, dv + dvsize;
      dvsize := dvsize + psize;
      var dsize := dvsize;
      dv := lo;
      SetFreeChunk(lo, dsize);
      OneEdit(m0, mem, space, ms, lo, hi, false, top, lo, binned, out, held, smallmap, treemap);
      space := OneSpace(space, lo, hi, false, top, lo);
    }

    /** The next chunk is free and in a bin: it is unlinked and merged. */
    method MergeWithNext(lo: int, psize: nat, next: int, ghost p: int, ghost out: set<int>) returns (size: nat)
      requires Holding(out) && p in Live(space) && Neighbours(space, p, lo) && BackOut(space, p, lo, out)
      requires next == NextOf(space, p) && FreeAt(space, next) && next != top && next != dv && psize == next - lo
      modifies `mem, `smallmap, `treemap, `binned, `held, `dvsize, `space
      ensures SegmentsKept()
      ensures space == FreedSpace(old(space), p, lo)
      ensures lo == dv ==> Valid()
      ensures lo != dv ==> Holding({lo})
      ensures lo in space.chunks && !space.chunks[lo].cin && space.chunks[lo].size == size && lo != top
      ensures Live(space) == old(Live(space)) - {p} && PayloadKept(old(mem), mem, Live(space))
    {
      hide BinsHold, HeapOk, PayloadKept, Mapped, Others, BinnedOk, NextFits, Emptied, Replaceable, Stretch, OutOf;
      hide Live, Around, BackOut, OnlyBins, Headed, SegsOk, FreedSpace;
      AroundFrom(mem, space, ms, p, lo);
      NextBinned(mem, space, ms, p, lo, binned, out);
      FreeWords(mem, space, ms, p, lo);
      BinnedPlace(mem, space, ms, binned, out, next);
      var nsize := LoadHead(mem, next).size;
      size := psize + nsize;
      ghost var l, m0 := Live(space), mem;
      UnlinkChunk(next, nsize, out);
      ghost var m1 := mem;
      MergeNextTags(lo, size, p, out + {next});
      KeptPart(m0, m1, l, Live(space));
      KeptTrans(m0, m1, mem, Live(space));
    }

    /** `set_size_and_pinuse_of_free_chunk` on the merged chunk; when it is `dv`, that has grown. */
    method MergeNextTags(lo: int, size: nat, ghost p: int, ghost out: set<int>)
      requires Holding(out) && p in Live(space) && Neighbours(space, p, lo) && OutOf(space, p, lo, out)
      requires FreeAt(space, NextOf(space, p)) && NextOf(space, p) != top && NextOf(space, p) != dv
      requires size == FreeEnd(space, p) - lo
      modifies `mem, `dvsize, `space
      ensures SegmentsKept()
      ensures space == FreedSpace(old(space), p, lo)
      ensures lo == dv ==> Valid()
      ensures lo != dv ==> Holding({lo})
      ensures lo in space.chunks && !space.chunks[lo].cin && space.chunks[lo].size == size && lo != top
      ensures Live(space) == old(Live(space)) - {p} && PayloadKept(old(mem), mem, Live(space))
    {
      hide Rewritten, OneTagged, BinsHold, HeapOk, PayloadKept, Mapped, Others, BinnedOk, NextFits, Emptied;
      hide Replaceable, Stretch, OutOf, Live, Around, BackOut, One, Two, OneSpace, TwoSpace, Headed, BinsAbove;
      hide SegsAbove, SegsOk, FreedSpace;
      AroundFrom(mem, space, ms, p, lo);
      FreedIs(mem, space, ms, p, lo);
      FreeReady(mem, space, ms, binned, p, lo, out);
      AroundStarts(mem, space, ms, p, lo);
      OwnOutside(mem, space, ms, p, lo);
      FreeWords(mem, space, ms, p, lo);
      FreeEndIs(mem, space, ms, p, lo);
      ghost var m0, hi := mem, FreeEnd(space, p);
      SetFreeChunk(lo, size);
      if lo == dv {
        dvsize := size;
      }
      OneEdit(m0, mem, space, ms, lo, hi, false, top, dv, binned, out, held, smallmap, treemap);
      space := OneSpace(space, lo, hi, false, top, dv);
    }

    /** The first step of both routines: a free chunk before this one, unless it is `dv`, leaves the bins. */
    method ConsolidateBackward(p0: int, psize0: nat, prevsize: nat, ghost lo: int) returns (p: int, psize: nat)
      requires Valid() && p0 in Live(space) && Neighbours(space, p0, lo) && lo != p0
      requires prevsize == SizeOf(space, lo) && psize0 == SizeOf(space, p0)
      modifies `mem, `smallmap, `treemap, `binned, `held
      ensures p == lo && psize == psize0 + prevsize && space == old(space)
      ensures lo == dv ==> unchanged(this)
      ensures Holding(if lo != dv then {lo} else {}) && PayloadKept(old(mem), mem, Live(space))
    {
      hide BinsHold, HeapOk, PayloadKept, BinnedOk, Live, Around, OnlyBins, Headed, SegsOk;
      AroundFrom(mem, space, ms, p0, lo);
      psize := psize0 + prevsize;
      p := p0 - prevsize;
      NothingWritten(mem, space);
      if p != dv {
        PrevBinned(mem, space, ms, p0, lo, binned);
        UnlinkChunk(p, prevsize, {});
        assert {} + {p} == {p};
      }
    }

    /** `dispose_chunk`: consolidates a chunk with its free neighbours and puts the result back. */
    method DisposeChunk(p0: int, psize0: nat)
      requires Valid() && p0 in Live(space) && psize0 == Live(space)[p0]
      modifies `mem, `smallmap, `treemap, `dv, `dvsize, `top, `topsize, `binned, `held, `space
      ensures SegmentsKept()
      ensures Valid() && Live(space) == old(Live(space)) - {p0}
      ensures PayloadKept(old(mem), mem, Live(space))
      ensures exists lo :: Neighbours(old(space), p0, lo) && space == FreedSpace(old(space), p0, lo)
    {
      hide BinsHold, HeapOk, PayloadKept, BinnedOk, Live, Neighbours, Headed, SegsOk, FreedSpace;
      ghost var lo := NeighboursOf(mem, space, ms, p0);
      ghost var m0 := mem;
      NeighbourWords(mem, space, ms, p0, lo, dv);
      NothingWritten(mem, space);
      var p, psize := p0, psize0;
      var next := p + psize;
      var h := LoadHead(mem, p);
      ghost var out: set<int> := {};
      if !h.pin {
        var prevsize := Load(mem, p);
        assert OkAddress(p - prevsize);
        p, psize := ConsolidateBackward(p0, psize0, prevsize, lo);
        NeighbourWords(mem, space, ms, p0, lo, dv);
        out := if lo != dv then {lo} else {};
        if p == dv && LoadHead(mem, next).cin && LoadHead(mem, next).pin {
          GrowDvOver(p, psize, next, p0);
          return;
        }
      }
      assert OkAddress(next);
      ghost var m1 := mem;
      if !LoadHead(mem, next).cin {
        if next == top {
          MergeIntoTop(p, psize, p0, out);
        } else if next == dv {
          MergeIntoDv(p, psize, p0, out);
        } else {
          psize := MergeWithNext(p, psize, next, p0, out);
          if p != dv {
            ghost var m2 := mem;
            InsertChunk(p, psize);
            KeptTrans(m1, m2, mem, Live(space));
          }
        }
      } else {
        SetFree(p, psize, next, p0, out);
        ghost var m2 := mem;
        InsertChunk(p, psize);
        KeptTrans(m1, m2, mem, Live(space));
      }
      KeptPart(m0, m1, old(Live(space)), Live(space));
      KeptTrans(m0, m1, mem, Live(space));
    }

    // ----- giving memory back to the system -----

    /** All memory is what the creator supplied. */
    ghost predicate Fixed()
      reads this
    {
      |space.regs| == 1 && space.regs[0].pinned
    }

    /** `dv` is forgotten, on its way to a bin or back to the system. */
    method ForgetDv()
      requires Valid() && dv != 0
      modifies `dv, `dvsize, `space
      ensures Holding({old(dv)}) && dv == 0 && space == old(space).(dv := 0) && Live(space) == old(Live(space))
    {
      hide BinsHold, HeapOk, Live, ListOk, SegsAbove, BinsAbove, Headed;
      DvForgotten(mem, space, ms, binned);
      dv := 0;
      dvsize := 0;
      space := space.(dv := 0);
    }

    /** The system unmaps the region, and its record leaves the list. */
    method UnmapSegment(pred: int, r: Region, next: int, ghost i: nat)
      requires |space.regs| == |space.recs| + 1 && Releasable(space, ms, i) && Holding({r.base})
      requires r == space.regs[i] && pred == RecordAt(space, ms, i - 1) && next == NextAt(space, ms, i)
      modifies `mem, `segNext, `space
      ensures Valid() && space == ReleasedSpace(old(space), i)
      ensures Live(space) == old(Live(space)) && PayloadKept(old(mem), mem, Live(space))
    {
      hide BinsHold, HeapOk, Live, ListOk, SegsAbove, BinsAbove, Headed, BinnedOk, PayloadKept, ReleasedSpace;
      hide KeptApart, EndOf, Relinked, RecordsPlaced, Unmapped;
      ghost var m0, s := mem, space;
      UnmapReady(mem, space, ms, i);
      mem := Unmapped(mem, r.base, EndOf(r));
      ghost var m1 := mem;
      UnmapKept(m0, m1, s, ms, i);
      if pred == ms + SEG {
        segNext := next;
      } else {
        mem := Store(mem, pred + 16, Data(next));
      }
      RelinkedIs(m0, m1, mem, s, ms, i);
      Released(m0, m1, mem, s, ms, i, binned, held, smallmap, treemap);
      ReleasedFields(m0, s, ms, i, leastAddr, seg, old(segNext), segNext);
      space := ReleasedSpace(space, i);
    }

    /** `release_unused_segments`: segments that are one free chunk, but for their record, are offered to the system,
        which takes them or not. */
    method ReleaseUnusedSegments() returns (released: nat)
      requires Valid()
      modifies `mem, `smallmap, `treemap, `dv, `dvsize, `binned, `held, `space, `segNext, `releaseChecks, `asked
      ensures Valid() && Live(space) == old(Live(space)) && PayloadKept(old(mem), mem, Live(space))
      ensures released + Footprint(space.regs) == old(Footprint(space.regs))
      ensures ReleaseDoes(answers, old(Seen()), Seen())
      ensures old(Fixed()) ==> SegmentsKept() && asked == old(asked)
      ensures asked >= old(asked)
    {
      hide Footprint, BinsHold, HeapOk, Live, ListOk, SegsAbove, BinsAbove, Headed, BinnedOk, PayloadKept, Looked;
      hide Offered;
      hide DvOffered, Remaining, Unheld, ReleasedSpace, Said, ReleaseDoes, Valid, SegsOk;
      released := 0;
      var nsegs := 0;
      var pred := ms + SEG;
      ValidFacts();
      ghost var v0, s0, i, j := Seen(), space, 1, 1;
      LookedFirst(answers, s0, asked);
      var first, sp := ReadRecord(pred, 0);
      NothingWritten(mem, space);
      while sp != 0
        invariant Valid() && Live(space) == old(Live(space)) && PayloadKept(old(mem), mem, Live(space))
        invariant 0 < i <= |space.regs| == |space.recs| + 1 && pred == RecordAt(space, ms, i - 1)
        invariant sp == NextAt(space, ms, i - 1) && (sp == 0 <==> i == |space.regs|)
        invariant released + Footprint(space.regs) == old(Footprint(space.regs))
        invariant Looked(answers, s0, old(asked), space, asked, i, j) && nsegs == j - 1
        invariant 0 < j <= |s0.regs| && |space.regs| == i + |s0.regs| - j
        invariant asked >= old(asked) && (old(Fixed()) ==> SegmentsKept() && asked == old(asked))
        decreases |space.regs| - i
      {
        ghost var m0, s, k := mem, space, asked;
        LookedNext(answers, s0, old(asked), s, k, i, j);
        ValidFacts();
        var r, next := ReadRecord(sp, i);
        nsegs := nsegs + 1;
        var offered, gone := false, false;
        if !r.pinned {
          offered, gone := TryRelease(pred, r, next, i);
          KeptTrans(old(mem), m0, mem, Live(space));
        }
        NotPinned(s, r);
        LookedStep(m0, s, ms, answers, s0, old(asked), k, i, j, space, offered, gone);
        j := j + 1;
        if gone {
          released := released + r.size;
        } else {
          pred := sp;
          i := i + 1;
        }
        sp := next;
      }
      ResetChecks(nsegs);
      LookedAll(answers, v0, Seen(), i);
    }

    method ResetChecks(nsegs: nat)
      requires Valid()
      modifies `releaseChecks
      ensures Valid()
      ensures releaseChecks == if nsegs > MAX_RELEASE_CHECK_RATE then nsegs else MAX_RELEASE_CHECK_RATE
    {
      hide BinsHold, HeapOk, Live, ListOk, SegsAbove, BinsAbove, Headed, BinnedOk;
      releaseChecks := if nsegs > MAX_RELEASE_CHECK_RATE then nsegs else MAX_RELEASE_CHECK_RATE;
    }

    /** The parts of the invariant that are needed to ask for a segment. */
    lemma HeldFacts(out: set<int>)
      requires Holding(out)
      ensures HeapOk(mem, space, ms) && SegsOk(mem, space, ms) && |space.regs| == |space.recs| + 1
      ensures BinnedOk(space, binned, out) && dv == space.dv && top == space.top
    {
      hide BinsHold, HeapOk, Live, ListOk, SegsAbove, BinsAbove, Headed, BinnedOk;
      ListLength(mem, space, ms, space.regs);
    }

    lemma ValidFacts()
      requires Valid()
      ensures HeapOk(mem, space, ms) && SegsOk(mem, space, ms) && |space.regs| == |space.recs| + 1
      ensures BinnedOk(space, binned, {}) && dv == space.dv && top == space.top
    {
      hide Holding;
      HeldFacts({});
    }

    /** `CALL_MUNMAP`, which the system refuses or not. */
    method CallMunmap(ghost out: set<int>) returns (yes: bool)
      requires Holding(out)
      modifies `asked
      ensures Holding(out) && asked == old(asked) + 1 && yes == Said(answers, old(asked)).yes
    {
      hide BinsHold, HeapOk, Live, ListOk, SegsAbove, BinsAbove, Headed, BinnedOk;
      yes := Said(answers, asked).yes;
      asked := asked + 1;
    }

    /** One step of it: whether the system was asked to take the segment of record `i`, and whether it has gone. */
    method TryRelease(pred: int, r: Region, next: int, ghost i: nat) returns (offered: bool, gone: bool)
      requires Valid() && 0 < i < |space.regs| == |space.recs| + 1 && r == space.regs[i] && !r.pinned
      requires pred == RecordAt(space, ms, i - 1) && next == NextAt(space, ms, i)
      modifies `mem, `smallmap, `treemap, `dv, `dvsize, `binned, `held, `space, `segNext, `asked
      ensures Valid() && Live(space) == old(Live(space)) && PayloadKept(old(mem), mem, Live(space))
      ensures |space.regs| == |space.recs| + 1
      ensures (offered <==> Offered(old(space), r)) && (gone <==> offered && Said(answers, old(asked)).yes)
      ensures asked == if offered then old(asked) + 1 else old(asked)
      ensures !offered ==> space == old(space)
      ensures offered && !gone ==> space == Unheld(old(space), r.base)
      ensures gone ==> |old(space).regs| == |old(space).recs| + 1
      ensures gone ==> space == ReleasedSpace(Unheld(old(space), r.base), i)
      ensures gone ==> Footprint(space.regs) + r.size == old(Footprint(space.regs))
      ensures gone ==>
        |space.regs| == old(|space.regs|) - 1 && pred == RecordAt(space, ms, i - 1) && next == NextAt(space, ms, i - 1)
      ensures gone ==> (next == 0 <==> i == |space.regs|)
      ensures !gone ==> space.regs == old(space.regs) && space.recs == old(space.recs)
    {
      hide Footprint, BinsHold, HeapOk, Live, ListOk, SegsAbove, BinsAbove, Headed, BinnedOk, PayloadKept, Releasable;
      hide EndOf, ReleasedSpace, Parts;
      ghost var m0 := mem;
      ValidFacts();
      NothingWritten(mem, space);
      SegsRegions(mem, space, ms);
      ReleaseReads(mem, space, ms, i);
      offered, gone := false, false;
      var p := r.base;
      var h := LoadHead(mem, p);
      var psize := h.size;
      if !(h.cin || !h.pin) && p + psize >= EndOf(r) - TOP_FOOT_SIZE {
        offered := true;
        ReleaseFinds(mem, space, ms, i, binned);
        if p == dv {
          ForgetDv();
        } else {
          UnlinkLarge(p, {});
          assert {} + {p} == {p};
        }
        ghost var m1 := mem;
        HeldFacts({p});
        assert space == Unheld(old(space), p);
        var yes := CallMunmap({p});
        if yes {
          ReleasedAt(space, ms, i);
          ReleasedFootprint(space, i);
          UnmapSegment(pred, r, next, i);
          ValidFacts();
          NextNull(mem, space, ms, i - 1);
          gone := true;
        } else {
          InsertLarge(p, psize);
        }
        KeptTrans(m0, m1, mem, Live(space));
      }
    }

    /** `has_segment_link`: whether the record of some segment lies in this one. */
    method HasSegmentLink(ss: Region) returns (b: bool)
      requires Valid()
      ensures b <==> Linked(space, ms, ss)
    {
      hide BinsHold, HeapOk, BinnedOk, ListOk, SegsAbove, BinsAbove, Headed, SegmentHolds;
      ListLength(mem, space, ms, space.regs);
      var sp := ms + SEG;
      ghost var i := 0;
      while true
        invariant i < |space.regs| && sp == RecordAt(space, ms, i)
        invariant forall j :: 0 <= j < i ==> !SegmentHolds(ss, RecordAt(space, ms, j))
        decreases |space.regs| - i
      {
        if SegmentHolds(ss, sp) { return true; }
        var r, next := ReadRecord(sp, i);
        sp := next;
        i := i + 1;
        if sp == 0 { return false; }
      }
    }

    /** The system takes the last `extra` bytes of the region of `top`. */
    method TrimTop(extra: nat)
      requires Valid() && Trimmable(space, extra)
      modifies `mem, `top, `topsize, `trimCheck, `seg, `space
      ensures Valid() && space == TrimmedSpace(old(space), extra) && trimCheck == DEFAULT_TRIM_THRESHOLD
      ensures Live(space) == old(Live(space)) && PayloadKept(old(mem), mem, Live(space))
    {
      hide BinsHold, HeapOk, Live, ListOk, SegsAbove, BinsAbove, BinnedOk, PayloadKept, KeptApart, TrimmedTagged;
      hide TrimmedTo, TrimmedSpace, Granular, Unmapped;
      ghost var m0, s := mem, space;
      TrimReady(mem, space, ms, extra, leastAddr);
      var end := EndOf(seg);
      mem := Unmapped(mem, end - extra, end);
      ghost var m1 := mem;
      TrimKept(m0, m1, s, ms, extra);
      TrimStill(m0, m1, s, ms, extra);
      seg := Region(seg.base, seg.size - extra, seg.pinned);
      InitTop(top, topsize - extra);
      TrimWritten(m0, m1, mem, s, ms, extra);
      Trimmed(m0, mem, s, ms, extra, binned, held, smallmap, treemap);
      space := TrimmedSpace(space, extra);
    }

    /** `sys_trim`: whole units at the end of `top`, but for `pad` bytes, are offered to the system, then unused
        segments. When nothing could be given back, trimming is turned off. */
    method SysTrim(pad: nat) returns (trimmed: bool)
      requires Valid()
      modifies `mem, `smallmap, `treemap, `dv, `dvsize, `top, `topsize, `binned, `held, `space, `releaseChecks
      modifies `trimCheck, `seg, `segNext, `asked
      ensures Valid() && Live(space) == old(Live(space)) && PayloadKept(old(mem), mem, Live(space))
      ensures trimmed <==> Footprint(space.regs) < old(Footprint(space.regs))
      ensures !trimmed && pad < MAX_REQUEST && topsize > old(trimCheck) ==> trimCheck == MAX_SIZE_T
      ensures TrimDoes(answers, old(Seen()), ms, pad, Seen())
      ensures old(Fixed()) ==> SegmentsKept() && asked == old(asked)
      ensures asked >= old(asked)
    {
      hide BinsHold, HeapOk, Live, ListOk, SegsAbove, BinsAbove, Headed, BinnedOk, PayloadKept, Granular, Footprint;
      hide ReleaseDoes, TrimmedView;
      ghost var m0 := mem;
      trimmed := false;
      NothingWritten(mem, space);
      if pad >= MAX_REQUEST { return; }
      var released := TrimEnd(pad + TOP_FOOT_SIZE);
      ghost var m1 := mem;
      var unused := ReleaseUnusedSegments();
      KeptTrans(m0, m1, mem, Live(space));
      released := released + unused;
      if released == 0 && topsize > trimCheck {
        trimCheck := MAX_SIZE_T;
      }
      trimmed := released != 0;
    }

    /** The first half of it, which leaves `pad` bytes and at most one unit. */
    method TrimEnd(pad: nat) returns (released: nat)
      requires Valid() && pad >= TOP_FOOT_SIZE
      modifies `mem, `top, `topsize, `space, `trimCheck, `seg, `asked
      ensures Valid() && Live(space) == old(Live(space)) && PayloadKept(old(mem), mem, Live(space))
      ensures released + Footprint(space.regs) == old(Footprint(space.regs)) && Granular(released)
      ensures top == old(top) && topsize + released == old(topsize)
      ensures released != 0 ==> pad < topsize <= pad + GRANULARITY
      ensures released == 0 ==> trimCheck == old(trimCheck)
      ensures Seen() == TrimmedView(answers, old(Seen()), ms, pad)
      ensures old(Fixed()) ==> SegmentsKept() && Fixed() && asked == old(asked)
      ensures asked >= old(asked)
    {
      hide BinsHold, HeapOk, Live, ListOk, SegsAbove, BinsAbove, Headed, BinnedOk, PayloadKept, Granular, SegmentHolds;
      hide Linked;
      released := 0;
      NoUnits();
      NothingWritten(mem, space);
      if topsize > pad {
        var unit := GRANULARITY;
        var extra := ((topsize - pad + (unit - 1)) / unit - 1) * unit;
        TrimExtra(mem, space, ms, pad, extra);
        TopRecordFirst(mem, space, ms);
        var sp, r, i := SegmentHolding(top);
        if !r.pinned {
          var linked := HasSegmentLink(r);
          if r.size >= extra && !linked {
            var given := CallMunmap({});
            if given {
              released := extra;
            }
          }
        }
        if released != 0 {
          TrimmedFields(space, released);
          TrimTop(released);
        }
      }
    }

    /** `mspace_free`: the client's chunk goes back, and nothing else changes for the clients. */
    method Free(at: int)
      requires Valid() && (at != 0 ==> at - 16 in Live(space))
      modifies `mem, `smallmap, `treemap, `dv, `dvsize, `top, `topsize, `binned, `held, `space, `releaseChecks
      modifies `trimCheck, `seg, `segNext, `asked
      ensures old(Fixed()) ==> SegmentsKept() && asked == old(asked)
      ensures asked >= old(asked)
      ensures Valid() && PayloadKept(old(mem), mem, Live(space))
      ensures at == 0 ==> unchanged(this)
      ensures at != 0 ==> Live(space) == old(Live(space)) - {at - 16}
      ensures at != 0 ==> FreeDoes(answers, old(Seen()), ms, at - 16, Seen())
    {
      hide BinsHold, HeapOk, PayloadKept, BinnedOk, Live, Neighbours, Headed, SegsOk;
      NothingWritten(mem, space);
      if at == 0 { return; }
      var p := at - 16;
      ghost var p0 := p;
      ghost var lo := NeighboursOf(mem, space, ms, p);
      ghost var m0 := mem;
      NeighbourWords(mem, space, ms, p, lo, dv);
      var h := LoadHead(mem, p);
      assert OkAddress(p) && h.cin;
      var psize := h.size;
      var next := p + psize;
      ghost var out: set<int> := {};
      if !h.pin {
        var prevsize := Load(mem, p);
        assert OkAddress(p - prevsize);
        p, psize := ConsolidateBackward(p, psize, prevsize, lo);
        NeighbourWords(mem, space, ms, p0, lo, dv);
        out := if lo != dv then {lo} else {};
        if p == dv && LoadHead(mem, next).cin && LoadHead(mem, next).pin {
          GrowDvOver(p, psize, next, p0);
          return;
        }
      }
      ghost var m1 := mem;
      FreeForward(p, psize, next, p0, out);
      KeptPart(m0, m1, old(Live(space)), Live(space));
      KeptTrans(m0, m1, mem, Live(space));
      assert FreedFrom(answers, old(Seen()), ms, p0, lo, Seen());
    }

    /** The second half of it, where `p` is the chunk together with a free one before it. */
    method FreeForward(p: int, psize0: nat, next: int, ghost p0: int, ghost out: set<int>)
      requires Holding(out) && p0 in Live(space) && Neighbours(space, p0, p) && BackOut(space, p0, p, out)
      requires next == NextOf(space, p0) && psize0 == next - p && !(p == dv && UsedAt(space, next))
      modifies `mem, `smallmap, `treemap, `dv, `dvsize, `top, `topsize, `binned, `held, `space, `releaseChecks
      modifies `trimCheck, `seg, `segNext, `asked
      ensures old(Fixed()) ==> SegmentsKept() && asked == old(asked)
      ensures asked >= old(asked)
      ensures Valid() && PayloadKept(old(mem), mem, Live(space)) && Live(space) == old(Live(space)) - {p0}
      ensures FreedFrom(answers, old(Seen()), ms, p0, p, Seen())
    {
      hide BinsHold, HeapOk, PayloadKept, BinnedOk, Live, Neighbours, Headed, SegsOk, FreedSpace, TrimDoes, PutBackDoes;
      hide DvAfter, TopAfter, FreeEnd, BackOut, SegsAbove, BinsAbove, ListOk;
      NeighbourWords(mem, space, ms, p0, p, dv);
      FreedIs(mem, space, ms, p0, p);
      assert p < next && LoadHead(mem, next).pin;
      var psize := psize0;
      ghost var m1 := mem;
      if !LoadHead(mem, next).cin {
        if next == top {
          MergeIntoTop(p, psize, p0, out);
          if topsize > trimCheck {
            ghost var m2 := mem;
            var trimmed := SysTrim(0);
            KeptTrans(m1, m2, mem, Live(space));
          }
        } else if next == dv {
          MergeIntoDv(p, psize, p0, out);
        } else {
          psize := MergeWithNext(p, psize, next, p0, out);
          if p != dv {
            ghost var m2 := mem;
            PutBack(p, psize);
            KeptTrans(m1, m2, mem, Live(space));
          }
        }
      } else {
        SetFree(p, psize, next, p0, out);
        ghost var m2 := mem;
        PutBack(p, psize);
        KeptTrans(m1, m2, mem, Live(space));
      }
    }

    /** The end of `mspace_free`: the chunk goes to its bin; every so often segments are looked at. */
    method PutBack(p: int, psize: nat)
      requires Holding({p}) && p in space.chunks && !space.chunks[p].cin && p != top && p != dv
      requires psize == space.chunks[p].size
      modifies `mem, `smallmap, `treemap, `dv, `dvsize, `binned, `held, `space, `segNext, `releaseChecks, `asked
      ensures Valid() && Live(space) == old(Live(space)) && PayloadKept(old(mem), mem, Live(space))
      ensures old(Fixed()) ==> SegmentsKept() && asked == old(asked)
      ensures asked >= old(asked)
      ensures PutBackDoes(answers, old(Seen()), psize, Seen())
    {
      hide BinsHold, HeapOk, PayloadKept, BinnedOk, Live, Headed, SegsOk, ReleaseDoes;
      InsertChunk(p, psize);
      if !IsSmall(psize) {
        if releaseChecks - 1 == 0 {
          ghost var m1 := mem;
          var released := ReleaseUnusedSegments();
          KeptTrans(old(mem), m1, mem, Live(space));
        } else {
          releaseChecks := releaseChecks - 1;
        }
      }
    }

    // ----- try_realloc_chunk -----

    /** `set_inuse`: keeps the chunk's `pinuse` bit, and sets that of whatever comes next. */
    method SetInuse(p: int, s: nat)
      requires p + HEAD in mem && p + s + HEAD in mem && s > 0
      modifies `mem
      ensures p + HEAD in mem && p + s + HEAD in mem
      ensures mem == old(mem)[p + HEAD := Head(s, true, PinuseOf(old(mem)[p + HEAD]))]
        [p + s + HEAD := WithPinuse(old(mem)[p + s + HEAD])]
    {
      mem := Store(mem, p + HEAD, Head(s, true, PinuseOf(mem[p + HEAD])));
      mem := Store(mem, p + s + HEAD, WithPinuse(mem[p + s + HEAD]));
    }

    /** The tail of a client's chunk becomes a chunk in use of its own. */
    method CutTail(p: int, nb: nat, rsize: nat)
      requires Valid() && p in Live(space) && MIN_CHUNK_SIZE <= nb && MIN_CHUNK_SIZE <= rsize
      requires nb + rsize == SizeOf(space, p) && nb % 16 == 0
      modifies `mem, `space
      ensures SegmentsKept()
      ensures Valid() && Live(space) == (old(Live(space)) - {p})[p := nb][p + nb := rsize]
      ensures p + nb !in old(Live(space)) && space == Split(old(space), p, p + nb, NextOf(old(space), p), true)
      ensures PayloadKept(old(mem), mem, old(Live(space)) - {p})
      ensures forall a :: InPayload(p, nb, a) && a in old(mem) ==> a in mem && mem[a] == old(mem)[a]
    {
      hide BinsHold, HeapOk, PayloadKept, Mapped, Others, BinnedOk, NextFits, Emptied, Replaceable, Stretch, Live, One;
      hide Two, OneSpace, TwoSpace, Headed, BinsAbove, SegsAbove, SegsOk;
      UsedFacts(mem, space, ms, p);
      UsedIn(mem, space, p);
      UsedSize(mem, space, p);
      CutReady(mem, space, ms, binned, p, p + nb);
      ghost var m0, hi := mem, NextOf(space, p);
      var r := p + nb;
      MappedAt(mem, p, hi + 16, r + HEAD);
      SetInuse(p, nb);
      SetInuse(r, rsize);
      TwoEdit(m0, mem, space, ms, p, r, hi, true, top, dv, binned, {}, held, smallmap, treemap);
      space := TwoSpace(space, p, r, hi, true, top, dv);
    }

    /** The writes of `GrowIntoTop`. */
    method GrowWords(p: int, nb: nat, newtopsize: nat)
      requires p in space.chunks && p + HEAD in mem && PinuseOf(mem[p + HEAD]) == space.chunks[p].pin
      requires nb > 0 && newtopsize > 0 && p + nb + HEAD in mem && p + nb + newtopsize !in space.chunks
      modifies `mem
      ensures Rewritten(old(mem), mem, p, p + nb + newtopsize)
      ensures TwoTagged(old(mem), mem, space.chunks, p, p + nb, p + nb + newtopsize, false, p + nb)
      ensures forall a :: a in old(mem) && p + HEAD < a < p + nb + HEAD ==> a in mem && mem[a] == old(mem)[a]
    {
      SetInuse(p, nb);
      mem := Store(mem, p + nb + HEAD, Head(newtopsize, false, true));
    }

    /** Extends a client's chunk into `top`. */
    method GrowIntoTop(p: int, oldsize: nat, nb: nat)
      requires Valid() && p in Live(space) && oldsize == SizeOf(space, p) && NextOf(space, p) == top
      requires oldsize < nb < oldsize + topsize && nb % 16 == 0
      modifies `mem, `top, `topsize, `space
      ensures SegmentsKept()
      ensures Valid() && Live(space) == (old(Live(space)) - {p})[p := nb]
      ensures PayloadKept(old(mem), mem, old(Live(space)) - {p})
      ensures forall a :: InPayload(p, oldsize, a) && a in old(mem) ==> a in mem && mem[a] == old(mem)[a]
    {
      hide Rewritten, TwoTagged, BinsHold, HeapOk, PayloadKept, Mapped, Others, BinnedOk, NextFits, Emptied;
      hide Replaceable, Stretch, Live, One, Two, OneSpace, TwoSpace, Headed, BinsAbove, SegsAbove, SegsOk;
      UsedFacts(mem, space, ms, p);
      UsedIn(mem, space, p);
      UsedSize(mem, space, p);
      TopFacts(mem, space, ms);
      TopIsNotDv(mem, space, ms);
      FreeEndIs(mem, space, ms, p, p);
      GrowReady(mem, space, ms, binned, {}, p, p + nb, false, p + nb, dv);
      ghost var m0, hi := mem, top + topsize;
      var newsize := oldsize + topsize;
      var newtopsize := newsize - nb;
      var newtop := p + nb;
      MappedAt(mem, top, hi + TOP_FOOT_SIZE, newtop + HEAD);
      GrowWords(p, nb, newtopsize);
      top := newtop;
      topsize := newtopsize;
      TwoEdit(m0, mem, space, ms, p, newtop, hi, false, newtop, dv, binned, {}, held, smallmap, treemap);
      space := TwoSpace(space, p, newtop, hi, false, newtop, dv);
    }

    /** The tags of a client's chunk of its new size and of the free chunk behind it. */
    method TagUsedThenFree(p: int, nb: nat, dsize: nat)
      requires nb >= MIN_CHUNK_SIZE && dsize >= MIN_CHUNK_SIZE
      requires p + HEAD in mem && p + nb + HEAD in mem && p + nb + dsize in mem && p + nb + dsize + HEAD in mem
      requires mem[p + nb + dsize + HEAD].Head?
      modifies `mem
      ensures Rewritten(old(mem), mem, p, p + nb + dsize)
      ensures HasHead(mem, p, nb, true, PinuseOf(old(mem)[p + HEAD])) && HasHead(mem, p + nb, dsize, false, true)
      ensures NumAt(mem, p + nb + dsize, dsize)
      ensures p + nb + dsize + HEAD in mem
      ensures mem[p + nb + dsize + HEAD] == old(mem)[p + nb + dsize + HEAD].(pin := false)
      ensures forall a :: p + HEAD < a <= p + nb && a in old(mem) ==> a in mem && mem[a] == old(mem)[a]
    {
      var r := p + nb;
      var n := r + dsize;
      SetInuse(p, nb);
      mem := Store(mem, r + HEAD, Head(dsize, false, true));
      mem := Store(mem, r + dsize, Data(dsize));
      var w := LoadHead(mem, n);
      mem := Store(mem, n + HEAD, w.(pin := false));
    }

    /** Extends a client's chunk into `dv`, part of which remains. */
    method GrowIntoDv(p: int, oldsize: nat, nb: nat, dsize: nat)
      requires Valid() && p in Live(space) && oldsize == SizeOf(space, p) && NextOf(space, p) == dv && dv != 0
      requires oldsize < nb && dsize >= MIN_CHUNK_SIZE && nb + dsize == oldsize + dvsize && nb % 16 == 0
      modifies `mem, `dv, `dvsize, `space
      ensures SegmentsKept()
      ensures Valid() && Live(space) == (old(Live(space)) - {p})[p := nb] && dv == p + nb
      ensures PayloadKept(old(mem), mem, old(Live(space)) - {p})
      ensures forall a :: InPayload(p, oldsize, a) && a in old(mem) ==> a in mem && mem[a] == old(mem)[a]
    {
      hide BinsHold, HeapOk, PayloadKept, Mapped, Others, BinnedOk, NextFits, Emptied, Replaceable, Stretch, Live;
      hide Rewritten, One, Two, OneSpace, TwoSpace, Headed, BinsAbove, SegsAbove, SegsOk;
      UsedFacts(mem, space, ms, p);
      UsedIn(mem, space, p);
      UsedSize(mem, space, p);
      DvIsFree(mem, space, ms);
      FreeFacts(mem, space, ms, dv);
      FreeEndIs(mem, space, ms, p, p);
      var r := p + nb;
      GrowReady(mem, space, ms, binned, {}, p, r, false, top, r);
      ghost var m0, hi := mem, dv + dvsize;
      MappedAt(mem, dv, hi + 16, r + HEAD);
      MappedAt(mem, dv, hi + 16, r + dsize);
      TagUsedThenFree(p, nb, dsize);
      dvsize := dsize;
      dv := r;
      TwoEdit(m0, mem, space, ms, p, r, hi, false, top, r, binned, {}, held, smallmap, treemap);
      space := TwoSpace(space, p, r, hi, false, top, r);
    }

    /** Extends a client's chunk over all of `dv`. */
    method GrowOverDv(p: int, oldsize: nat, newsize: nat)
      requires Valid() && p in Live(space) && oldsize == SizeOf(space, p) && NextOf(space, p) == dv && dv != 0
      requires newsize == oldsize + dvsize
      modifies `mem, `dv, `dvsize, `space
      ensures SegmentsKept()
      ensures Valid() && Live(space) == (old(Live(space)) - {p})[p := newsize] && dv == 0
      ensures PayloadKept(old(mem), mem, old(Live(space)) - {p})
      ensures forall a :: InPayload(p, oldsize, a) && a in old(mem) ==> a in mem && mem[a] == old(mem)[a]
    {
      hide BinsHold, HeapOk, PayloadKept, Mapped, Others, BinnedOk, NextFits, Emptied, Replaceable, Stretch, Live, One;
      hide Two, OneSpace, TwoSpace, Headed, BinsAbove, SegsAbove, SegsOk;
      UsedFacts(mem, space, ms, p);
      UsedIn(mem, space, p);
      UsedSize(mem, space, p);
      DvIsFree(mem, space, ms);
      FreeFacts(mem, space, ms, dv);
      FreeEndIs(mem, space, ms, p, p);
      GrowReady(mem, space, ms, binned, {}, p, p, true, top, 0);
      ghost var m0, hi := mem, dv + dvsize;
      SetInuse(p, newsize);
      dvsize := 0;
      dv := 0;
      OneEdit(m0, mem, space, ms, p, hi, true, top, 0, binned, {}, held, smallmap, treemap);
      space := OneSpace(space, p, hi, true, top, 0);
    }

    /** Extends a client's chunk over all of the next one, which has been unlinked. */
    method GrowOverNext(p: int, oldsize: nat, newsize: nat)
      requires Holding({NextOf(space, p)}) && p in Live(space) && oldsize == SizeOf(space, p)
      requires FreeAt(space, NextOf(space, p))
      requires NextOf(space, p) != top && NextOf(space, p) != dv && newsize == oldsize + SizeOf(space, NextOf(space, p))
      modifies `mem, `space
      ensures SegmentsKept()
      ensures Valid() && PayloadKept(old(mem), mem, old(Live(space)) - {p})
      ensures Live(space) == (old(Live(space)) - {p})[p := newsize]
      ensures forall a :: InPayload(p, oldsize, a) && a in old(mem) ==> a in mem && mem[a] == old(mem)[a]
    {
      hide BinsHold, HeapOk, PayloadKept, Mapped, Others, BinnedOk, NextFits, Emptied, Replaceable, Stretch, Live, One;
      hide Two, OneSpace, TwoSpace, Headed, BinsAbove, SegsAbove, SegsOk;
      UsedFacts(mem, space, ms, p);
      UsedIn(mem, space, p);
      UsedSize(mem, space, p);
      ghost var m0, next, hi := mem, NextOf(space, p), FreeEnd(space, p);
      FreeFacts(mem, space, ms, next);
      GrowReady(mem, space, ms, binned, {next}, p, p, true, top, dv);
      SetInuse(p, newsize);
      OneEdit(m0, mem, space, ms, p, hi, true, top, dv, binned, {next}, held, smallmap, treemap);
      space := OneSpace(space, p, hi, true, top, dv);
    }

    /** Extends a client's chunk over part of the next one; the rest becomes a chunk in use of its own. */
    method GrowPartly(p: int, oldsize: nat, rsize: nat, nb: nat)
      requires Holding({NextOf(space, p)}) && p in Live(space) && oldsize == SizeOf(space, p)
      requires FreeAt(space, NextOf(space, p))
      requires NextOf(space, p) != top && NextOf(space, p) != dv
      requires nb + rsize == oldsize + SizeOf(space, NextOf(space, p))
      requires oldsize < nb && rsize >= MIN_CHUNK_SIZE && nb % 16 == 0
      modifies `mem, `space
      ensures SegmentsKept()
      ensures Valid() && PayloadKept(old(mem), mem, old(Live(space)) - {p})
      ensures Live(space) == (old(Live(space)) - {p})[p := nb][p + nb := rsize] && p + nb !in old(Live(space))
      ensures space == Split(old(space), p, p + nb, FreeEnd(old(space), p), true)
      ensures forall a :: InPayload(p, oldsize, a) && a in old(mem) ==> a in mem && mem[a] == old(mem)[a]
    {
      hide BinsHold, HeapOk, PayloadKept, Mapped, Others, BinnedOk, NextFits, Emptied, Replaceable, Stretch, Live, One;
      hide Two, OneSpace, TwoSpace, Headed, BinsAbove, SegsAbove, SegsOk;
      UsedFacts(mem, space, ms, p);
      UsedIn(mem, space, p);
      UsedSize(mem, space, p);
      ghost var m0, next, hi := mem, NextOf(space, p), FreeEnd(space, p);
      FreeFacts(mem, space, ms, next);
      var r := p + nb;
      GrowReady(mem, space, ms, binned, {next}, p, r, true, top, dv);
      MappedAt(mem, next, hi + 16, r + HEAD);
      SetInuse(p, nb);
      SetInuse(r, rsize);
      TwoEdit(m0, mem, space, ms, p, r, hi, true, top, dv, binned, {next}, held, smallmap, treemap);
      space := TwoSpace(space, p, r, hi, true, top, dv);
    }

    /** Cuts off the tail of a client's chunk and gives it back. */
    method ShrinkInPlace(p: int, nb: nat, rsize: nat)
      requires Valid() && p in Live(space) && MIN_CHUNK_SIZE <= nb && MIN_CHUNK_SIZE <= rsize
      requires nb + rsize == SizeOf(space, p) && nb % 16 == 0
      modifies `mem, `smallmap, `treemap, `dv, `dvsize, `top, `topsize, `binned, `held, `space
      ensures SegmentsKept()
      ensures Valid() && Live(space) == (old(Live(space)) - {p})[p := nb]
      ensures dv == if NextOf(old(space), p) == old(dv) then p + nb else old(dv)
      ensures PayloadKept(old(mem), mem, old(Live(space)) - {p})
      ensures forall a :: InPayload(p, nb, a) && a in old(mem) ==> a in mem && mem[a] == old(mem)[a]
    {
      hide BinsHold, HeapOk, BinnedOk, Live, PayloadKept, Headed, SegsOk, FreedSpace, Neighbours, Split;
      ghost var m0, s0, l := mem, space, Live(space);
      CutTail(p, nb, rsize);
      ghost var m1, s1 := mem, space;
      DisposeChunk(p + nb, rsize);
      ghost var lo :| Neighbours(s1, p + nb, lo) && space == FreedSpace(s1, p + nb, lo);
      SplitGivenBack(m0, s0, ms, m1, s1, p, nb, NextOf(s0, p), lo);
      KeptPart(m1, mem, Live(space), l - {p});
      KeptTrans(m0, m1, mem, l - {p});
      KeptOne(m1, mem, Live(space), p);
    }

    /** Extends a client's chunk into the next free one; what is left over is given back. */
    method GrowIntoNext(p: int, oldsize: nat, next: int, nextsize: nat, nb: nat)
      requires Valid() && p in Live(space) && oldsize == SizeOf(space, p) && next == NextOf(space, p)
      requires FreeAt(space, next)
      requires next != top && next != dv && nextsize == SizeOf(space, next) && oldsize < nb <= oldsize + nextsize
      requires nb % 16 == 0
      modifies `mem, `smallmap, `treemap, `dv, `dvsize, `top, `topsize, `binned, `held, `space
      ensures SegmentsKept()
      ensures Valid() && PayloadKept(old(mem), mem, old(Live(space)) - {p})
      ensures Live(space) == (old(Live(space)) - {p})[p := TakenSize(oldsize + nextsize, nb)] && dv == old(dv)
      ensures forall a :: InPayload(p, oldsize, a) && a in old(mem) ==> a in mem && mem[a] == old(mem)[a]
    {
      hide BinsHold, HeapOk, BinnedOk, Live, PayloadKept, OnlyBins, Headed, SegsOk, FreedSpace, Neighbours, Split;
      ghost var m0, s0, l := mem, space, Live(space);
      FreeIsBinned(space, binned, next);
      UnlinkChunk(next, nextsize, {});
      assert {} + {next} == {next};
      KeptOne(m0, mem, l, p);
      LiveSize(mem, space, ms, p);
      ghost var m1 := mem;
      KeptPart(m0, m1, l, l - {p});
      var rsize := oldsize + nextsize - nb;
      if rsize < MIN_CHUNK_SIZE {
        GrowOverNext(p, oldsize, oldsize + nextsize);
        KeptTrans(m0, m1, mem, l - {p});
      } else {
        GrowPartly(p, oldsize, rsize, nb);
        ghost var m2, s2 := mem, space;
        KeptTrans(m0, m1, m2, l - {p});
        DisposeChunk(p + nb, rsize);
        ghost var lo :| Neighbours(s2, p + nb, lo) && space == FreedSpace(s2, p + nb, lo);
        SplitGivenBack(m0, s0, ms, m2, s2, p, nb, FreeEnd(s0, p), lo);
        KeptPart(m2, mem, Live(space), l - {p});
        KeptTrans(m0, m2, mem, l - {p});
        KeptOne(m2, mem, Live(space), p);
      }
    }

    /** `try_realloc_chunk`: changes the size of a client's chunk in place, or returns null with nothing changed. */
    method TryRealloc(p: int, nb: nat) returns (newp: int)
      requires Valid() && p in Live(space) && MIN_CHUNK_SIZE <= nb && nb % 16 == 0
      modifies `mem, `smallmap, `treemap, `dv, `dvsize, `top, `topsize, `binned, `held, `space
      ensures SegmentsKept()
      ensures Valid() && PayloadKept(old(mem), mem, old(Live(space)) - {p})
      ensures newp == 0 ==> unchanged(this)
      ensures newp != 0 <==> CanReach(old(space), p, nb)
      ensures newp != 0 ==> newp == p && Resized(p, nb) && InPlace(old(space), p, nb, space)
      ensures newp != 0 ==>
        forall a :: InPayload(p, old(SizeOf(space, p)), a) && InPayload(p, SizeOf(space, p), a) && a in old(mem) ==>
          a in mem && mem[a] == old(mem)[a]
    {
      hide BinsHold, HeapOk, PayloadKept, BinnedOk, Live, Headed, SegsOk;
      newp := 0;
      ghost var m0, s0, l := mem, space, Live(space);
      LiveSize(mem, space, ms, p);
      ReallocWords(mem, space, ms, p);
      NothingWritten(mem, space);
      KeptPart(m0, mem, l, l - {p});
      var oldsize := LoadHead(mem, p).size;
      var next := p + oldsize;
      assert OkAddress(p) && LoadHead(mem, p).cin && p < next && LoadHead(mem, next).pin;
      if oldsize >= nb {
        var rsize := oldsize - nb;
        if rsize >= MIN_CHUNK_SIZE {
          ShrinkInPlace(p, nb, rsize);
        }
        newp := p;
      } else if next == top {
        if oldsize + topsize > nb {
          GrowIntoTop(p, oldsize, nb);
          newp := p;
        }
      } else if next == dv {
        var dvs := dvsize;
        if oldsize + dvs >= nb {
          var dsize := oldsize + dvs - nb;
          if dsize >= MIN_CHUNK_SIZE {
            GrowIntoDv(p, oldsize, nb, dsize);
          } else {
            GrowOverDv(p, oldsize, oldsize + dvs);
          }
          newp := p;
        }
      } else if !LoadHead(mem, next).cin {
        var nextsize := LoadHead(mem, next).size;
        if oldsize + nextsize >= nb {
          GrowIntoNext(p, oldsize, next, nextsize, nb);
          newp := p;
        }
      }
      if newp != 0 {
        LiveSize(mem, space, ms, p);
        NextPlace(m0, s0, ms, p);
      }
    }

    /** A client's chunk keeps its place with a size that holds the request and wastes less than a chunk. */
    twostate predicate Resized(p: int, nb: nat)
      reads this
    {
      && p in Live(space) && nb <= Live(space)[p] < nb + MIN_CHUNK_SIZE
      && Live(space) == (old(Live(space)) - {p})[p := Live(space)[p]] && SizeOf(space, p) == Live(space)[p]
    }

    // ----- mspace_realloc -----

    /** `memcpy` between the payloads of two different chunks that clients hold. */
    method Memcpy(dst: int, src: int, n: nat)
      requires Valid() && dst - 16 in Live(space) && src - 16 in Live(space) && dst != src
      requires n + CHUNK_OVERHEAD <= Live(space)[dst - 16] && n + CHUNK_OVERHEAD <= Live(space)[src - 16]
      modifies `mem
      ensures Valid() && Copied(old(mem), mem, src, dst, n)
      ensures PayloadKept(old(mem), mem, Live(space) - {dst - 16})
    {
      hide BinsHold, HeapOk, BinnedOk, Live, PayloadKept, Copied, Blend, WordsCopied, Headed, SegsOk;
      ghost var m0, p := mem, dst - 16;
      CopyPlaces(mem, space, ms, p, src - 16, n);
      CopyWords(dst, src, n / 8);
      ghost var m1 := mem;
      if n % 8 != 0 {
        var d, s := WordAt(dst, n / 8), WordAt(src, n / 8);
        mem := Store(mem, d, Data(Blend(Bits(mem[d]), Bits(mem[s]), n % 8)));
      }
      TailApart(m0, m1, mem, src, dst, n);
      CopyInPayload(m0, m1, mem, space, p, n);
      CopiedByWords(m0, m1, mem, src, dst, n);
      ClientWrote(m0, mem, space, ms, p, binned, held, smallmap, treemap);
    }

    method CopyWords(dst: int, src: int, k: nat)
      requires Mapped(mem, dst, dst + 8 * k) && Mapped(mem, src, src + 8 * k)
      requires (dst + 8 * k <= src || src + 8 * k <= dst)
      modifies `mem
      ensures WordsCopied(old(mem), mem, src, dst, k) && ChangedIn(old(mem), mem, dst, WordAt(dst, k) - 7)
    {
      ghost var m0 := mem;
      var i := 0;
      while i < k
        invariant 0 <= i <= k && ChangedIn(m0, mem, dst, WordAt(dst, i) - 7) && WordsCopied(m0, mem, src, dst, i)
      {
        mem := Store(mem, WordAt(dst, i), mem[WordAt(src, i)]);
        i := i + 1;
      }
    }

    /** A client's chunk has been replaced by another one, or by itself with another size. */
    twostate predicate Moved(p: int, q: int, nb: nat)
      reads this
    {
      && q in Live(space) && nb <= Live(space)[q] < nb + MIN_CHUNK_SIZE
      && (q == p || q !in old(Live(space)))
      && Live(space) == (old(Live(space)) - {p})[q := Live(space)[q]]
    }

    /** The end of `mspace_realloc`, once a new chunk has been allocated: copy and free. */
    method CopyAndFree(at: int, r: int, bytes: nat)
      requires Valid() && at - 16 in Live(space) && r - 16 in Live(space) && r != at
      requires bytes + CHUNK_OVERHEAD <= Live(space)[r - 16] && bytes < MAX_REQUEST
      modifies `mem, `smallmap, `treemap, `dv, `dvsize, `top, `topsize, `binned, `held, `space, `releaseChecks
      modifies `trimCheck, `seg, `segNext, `asked
      ensures old(Fixed()) ==> SegmentsKept() && asked == old(asked)
      ensures asked >= old(asked)
      ensures FreeDoes(answers, old(Seen()), ms, at - 16, Seen())
      ensures Valid() && Live(space) == old(Live(space)) - {at - 16}
      ensures PayloadKept(old(mem), mem, old(Live(space)) - {at - 16} - {r - 16})
      ensures old(Live(space))[at - 16] >= CHUNK_OVERHEAD
      ensures Copied(old(mem), mem, at, r, KeptBy(old(Live(space))[at - 16], bytes))
    {
      hide BinsHold, HeapOk, BinnedOk, Live, PayloadKept, Copied, Headed, SegsOk, FreeDoes;
      ghost var m1, l1, p, q := mem, Live(space), at - 16, r - 16;
      PayloadMapped(mem, space, ms, p);
      PayloadMapped(mem, space, ms, q);
      var oc := LoadHead(mem, at - 16).size - CHUNK_OVERHEAD;
      var n := if oc < bytes then oc else bytes;
      Memcpy(r, at, n);
      ghost var m2 := mem;
      PayloadMapped(mem, space, ms, q);
      LiveSize(mem, space, ms, p);
      Free(at);
      KeptOne(m2, mem, Live(space), q);
      KeptBytes(m2, mem, q, l1[q], n);
      CopiedThen(m1, m2, mem, at, r, r, n);
      ghost var rest := l1 - {p} - {q};
      KeptPart(m1, m2, l1 - {q}, rest);
      KeptPart(m2, mem, Live(space), rest);
      KeptTrans(m1, m2, mem, rest);
    }

    // ----- internal_memalign, mspace_memalign -----

    /** The front of a client's chunk becomes a chunk in use of its own, tags written from the back. */
    method CutLeader(p: int, leadsize: nat, newsize: nat)
      requires Valid() && p in Live(space) && MIN_CHUNK_SIZE <= leadsize && MIN_CHUNK_SIZE <= newsize
      requires leadsize + newsize == SizeOf(space, p) && leadsize % 16 == 0
      modifies `mem, `space
      ensures SegmentsKept()
      ensures Valid() && Live(space) == (old(Live(space)) - {p})[p := leadsize][p + leadsize := newsize]
      ensures p + leadsize !in old(Live(space))
      ensures space == Split(old(space), p, p + leadsize, NextOf(old(space), p), true)
      ensures PayloadKept(old(mem), mem, old(Live(space)) - {p})
    {
      hide BinsHold, HeapOk, PayloadKept, Mapped, Others, BinnedOk, NextFits, Emptied, Replaceable, Stretch, Live, One;
      hide Two, OneSpace, TwoSpace, Headed, BinsAbove, SegsAbove, SegsOk;
      UsedFacts(mem, space, ms, p);
      UsedIn(mem, space, p);
      UsedSize(mem, space, p);
      var newp := p + leadsize;
      CutReady(mem, space, ms, binned, p, newp);
      ghost var m0, hi := mem, NextOf(space, p);
      MappedAt(mem, p, hi + 16, newp + HEAD);
      SetInuse(newp, newsize);
      SetInuse(p, leadsize);
      TwoEdit(m0, mem, space, ms, p, newp, hi, true, top, dv, binned, {}, held, smallmap, treemap);
      space := TwoSpace(space, p, newp, hi, true, top, dv);
    }

    /** `internal_memalign` first makes the alignment a power of two. */
    method RoundAlignment(alignment: nat) returns (a: nat)
      requires alignment <= 0x8000_0000_0000_0000
      ensures RoundsTo(alignment, a) && RoundsTo(a, a) && 32 <= a <= 0x8000_0000_0000_0000 && a % 16 == 0
    {
      hide And64, PowerOfTwo;
      var al := if alignment < MIN_CHUNK_SIZE then MIN_CHUNK_SIZE else alignment;
      PowerTest(al);
      a := al;
      if And64(al, al - 1) != 0 {
        ThirtyTwo();
        a := MALLOC_ALIGNMENT * 2;
        while a < al
          invariant PowerOfTwo(a) && a >= MIN_CHUNK_SIZE && (a == MIN_CHUNK_SIZE || a < 2 * al)
          invariant a <= 0x8000_0000_0000_0000
          decreases 2 * al - a
        {
          a := a * 2;
          Twice(a / 2, al);
        }
      }
      Power16(a);
    }

    /** Cuts a client's chunk at an aligned place and gives back what is before it. */
    method AlignFront(p: int, al: nat, nb: nat) returns (newp: int)
      requires Valid() && p in Live(space) && RoundsTo(al, al) && MIN_CHUNK_SIZE <= nb && nb % 16 == 0
      requires nb + al + MIN_CHUNK_SIZE <= SizeOf(space, p) && p > 0 && And64(p + 16, al - 1) != 0
      modifies `mem, `smallmap, `treemap, `dv, `dvsize, `top, `topsize, `binned, `held, `space
      ensures SegmentsKept()
      ensures Valid() && PayloadKept(old(mem), mem, old(Live(space)) - {p})
      ensures (newp + 16) % al == 0 && p + MIN_CHUNK_SIZE <= newp < p + MIN_CHUNK_SIZE + al
      ensures dv == old(dv) && newp !in old(Live(space)) && nb <= old(SizeOf(space, p)) - (newp - p)
      ensures Live(space) == (old(Live(space)) - {p})[newp := old(SizeOf(space, p)) - (newp - p)]
    {
      hide BinsHold, HeapOk, BinnedOk, Live, PayloadKept, And64, CutPlace, PowerOfTwo, Headed, SegsOk, FreedSpace;
      hide Neighbours, Split;
      ghost var m0, l := mem, Live(space);
      LiveSize(mem, space, ms, p);
      PayloadMapped(mem, space, ms, p);
      AddressBound(mem, space, ms, p, leastAddr);
      CutPlaceOk(p, al);
      newp := CutPlace(p, al);
      var leadsize := newp - p;
      var newsize := LoadHead(mem, p).size - leadsize;
      UsedSize(mem, space, p) by { UsedFacts(mem, space, ms, p); }
      SplitParts(space, p, leadsize, NextOf(space, p));
      CutLeader(p, leadsize, newsize);
      ghost var m1, s1, l1 := mem, space, Live(space);
      DisposeChunk(p, leadsize);
      ghost var lo :| Neighbours(s1, p, lo) && space == FreedSpace(s1, p, lo);
      BeforeOneInUse(m1, s1, ms, p, lo);
      CutFrontLive(l, p, newp, leadsize, newsize);
      KeptPart(m1, mem, Live(space), l - {p});
      KeptTrans(m0, m1, mem, l - {p});
    }

    /** Gives back spare room at the end of a client's chunk. */
    method TrimBack(p: int, nb: nat)
      requires Valid() && p in Live(space) && MIN_CHUNK_SIZE <= nb <= Live(space)[p] && nb % 16 == 0
      modifies `mem, `smallmap, `treemap, `dv, `dvsize, `top, `topsize, `binned, `held, `space
      ensures SegmentsKept()
      ensures Valid() && PayloadKept(old(mem), mem, old(Live(space)) - {p})
      ensures Live(space) == (old(Live(space)) - {p})[p := FittedTo(old(Live(space))[p], nb)]
      ensures dv == DvFitted(old(dv), p, old(Live(space))[p], nb)
    {
      hide BinsHold, HeapOk, BinnedOk, Live, PayloadKept, Headed, SegsOk;
      PayloadMapped(mem, space, ms, p);
      NothingWritten(mem, space);
      KeptPart(mem, mem, Live(space), Live(space) - {p});
      var size := LoadHead(mem, p).size;
      if size > nb + MIN_CHUNK_SIZE {
        var remainderSize := size - nb;
        ShrinkInPlace(p, nb, remainderSize);
      }
    }

    /** A new chunk, larger than needed by the alignment and one more chunk, is cut at an aligned place; what is before
        and after it goes back. */
    method FitAligned(p0: int, al: nat, nb: nat) returns (p: int)
      requires Valid() && p0 in Live(space) && RoundsTo(al, al) && MIN_CHUNK_SIZE <= nb && nb % 16 == 0
      requires nb + al + MIN_CHUNK_SIZE <= SizeOf(space, p0) && p0 > 0 && al > 0
      modifies `mem, `smallmap, `treemap, `dv, `dvsize, `top, `topsize, `binned, `held, `space
      ensures SegmentsKept()
      ensures Valid() && PayloadKept(old(mem), mem, old(Live(space)) - {p0})
      ensures AlignedIn(p0, al, p) && (p == p0 || p !in old(Live(space))) && nb <= old(SizeOf(space, p0)) - (p - p0)
      ensures Live(space) == (old(Live(space)) - {p0})[p := FittedTo(old(SizeOf(space, p0)) - (p - p0), nb)]
      ensures dv == DvFitted(old(dv), p, old(SizeOf(space, p0)) - (p - p0), nb)
    {
      hide BinsHold, HeapOk, BinnedOk, Live, PayloadKept, Headed, BinsAbove, SegsAbove, RoundsTo, And64, SegsOk;
      ghost var m0, l := mem, Live(space);
      p := p0;
      NothingWritten(mem, space);
      KeptPart(mem, mem, l, l - {p0});
      LiveSize(mem, space, ms, p0);
      if And64(p0 + 16, al - 1) != 0 {
        p := AlignFront(p0, al, nb);
      }
      AlreadyAligned(p0 + 16, al);
      ghost var m1, l1 := mem, Live(space);
      TrimBack(p, nb);
      MovedTwice(l, l1, Live(space), p0, p);
      KeptPart(m1, mem, l1 - {p}, l - {p0});
      KeptTrans(m0, m1, mem, l - {p0});
    }

    // ----- what holds of every run -----

    /** Once clients hold nothing, in whatever order they gave it back, and the region that the mspace was created in is
        its only one, whatever others it had in between, it is as it was when it was created: one `top` at its first
        address and of its first size, no `dv`, all bins empty. */
    lemma AllFreed(base: int, capacity: nat)
      requires Valid() && GoodRegion(base, capacity) && ms == base + 16 && Live(space) == map[]
      requires space.regs == [Region(base, capacity, true)]
      ensures space == Initial(base, capacity)
      ensures top == base + STATE_SIZE && topsize == capacity - STATE_SIZE - TOP_FOOT_SIZE
      ensures dv == 0 && dvsize == 0 && IsZero(smallmap) && IsZero(treemap)
    {
      hide BinsHold, Shape, HeapOk, BinnedOk, Headed, SegsOk;
      ShapeOf(mem, space, ms);
      FirstRegionOnly(mem, space, base, capacity);
      NothingHeld(space, base, capacity);
      NothingBinned(base, capacity, binned);
      ClearMaps(mem, ms, held, smallmap, treemap);
    }
  }
}
