/** What clients may do with the chunks they hold. */
module Clients {
  import opened Words
  import opened BinMap
  import opened Rings
  import opened Tries
  import opened TrieMemory
  import opened Bins
  import opened Heap
  import opened HeapMemory
  import opened HeapEdits
  import opened Freeing
  import opened Records
  import opened Bytes

  /** Only words of the payload of `p` have changed. */
  ghost predicate WrotePayload(m: Mem, m': Mem, s: Space, p: int) {
    forall a :: a in m ==> a in m' && (m'[a] != m[a] ==> InPayload(p, SizeOf(s, p), a))
  }

  /** A chunk in use that does not hold the state. */
  ghost predicate Writable(s: Space, ms: int, p: int) { UsedAt(s, p) && p != ms - 16 }

  lemma LiveWritable(m: Mem, s: Space, ms: int, p: int)
    requires HeapOk(m, s, ms) && p in Live(s)
    ensures Writable(s, ms, p) && p !in s.own && Live(s)[p] == SizeOf(s, p)
  {
    hide Tiled, Tags, Backed, TopOk, Coalesced;
  }

  /** No word of such a chunk's payload is a boundary tag. */
  lemma PayloadPlace(m: Mem, s: Space, ms: int, p: int, a: int, q: int)
    requires HeapOk(m, s, ms) && Writable(s, ms, p) && InPayload(p, SizeOf(s, p), a) && q in s.chunks
    ensures a != q + HEAD && (FreeAt(s, q) ==> a != q + SizeOf(s, q)) && (q == s.top ==> a != q + SizeOf(s, q) + HEAD)
    ensures q != p && q in Live(s) ==> !InPayload(q, SizeOf(s, q), a)
  {
    hide HeapOk, Shape, UsedPlace;
    ShapeOf(m, s, ms);
    FreeChunk(m, s, ms, p);
    SizePositive(m, s, ms, q);
    UsedNotTop(s, ms, p);
    if q in Live(s) { LiveWritable(m, s, ms, q); }
    if q != p { ChunksApart(s, ms, p, q); }
  }

  lemma UsedNotTop(s: Space, ms: int, p: int)
    requires Shape(s, ms) && UsedAt(s, p)
    ensures p != s.top
  {
    hide Tiled, Coalesced, DvOk, OwnOk;
  }

  /** What a client writes into its payload leaves the heap, the bins, and all other payloads as they are. */
  lemma ClientWrote(m: Mem, m': Mem, s: Space, ms: int, p: int, f: Sizing, h: Held, sm: Word32, tm: Word32)
    requires HeapOk(m, s, ms) && p in Live(s) && WrotePayload(m, m', s, p)
    requires BinnedOk(s, f, {}) && BinsHold(m, f, ms, h, sm, tm)
    ensures HeapOk(m', s, ms) && BinsHold(m', f, ms, h, sm, tm)
    ensures PayloadKept(m, m', Live(s) - {p}) && (SegsOk(m, s, ms) ==> SegsOk(m', s, ms))
  {
    hide SegsOk, HeapOk, Shape, BinsHold, WrotePayload, Tagged, Mapped, UsedPlace;
    LiveWritable(m, s, ms, p);
    HeapAfterWrite(m, m', s, ms, p);
    if SegsOk(m, s, ms) { RecordsAfterWrite(m, m', s, ms, p); }
    BinnedFree(s, f, {});
    BinsAfterWrite(m, m', s, ms, p, f, h, sm, tm);
    forall q: int, a: int | q in Live(s) - {p} && a in m && InPayload(q, (Live(s) - {p})[q], a)
      ensures a in m' && m'[a] == m[a]
    {
      OtherPayload(m, m', s, ms, p, q, a);
    }
  }

  lemma OtherPayload(m: Mem, m': Mem, s: Space, ms: int, p: int, q: int, a: int)
    requires HeapOk(m, s, ms) && Writable(s, ms, p) && WrotePayload(m, m', s, p) && q in Live(s) && q != p && a in m
    requires InPayload(q, Live(s)[q], a)
    ensures a in m' && m'[a] == m[a]
  {
    hide HeapOk;
    if InPayload(p, SizeOf(s, p), a) { PayloadPlace(m, s, ms, p, a, q); }
  }

  lemma HeapAfterWrite(m: Mem, m': Mem, s: Space, ms: int, p: int)
    requires HeapOk(m, s, ms) && Writable(s, ms, p) && WrotePayload(m, m', s, p)
    ensures HeapOk(m', s, ms)
  {
    hide HeapOk, Shape, Tiled, TopOk, NextFits, Live, Coalesced, OwnOk, DvOk, Mapped, Backed, UsedPlace, Tagged;
    HeapShape(m, s, ms);
    forall q | q in s.chunks ensures Tagged(m', s.chunks, s.top, q) { TagAfterWrite(m, m', s, ms, p, q); }
    BackedAfterWrite(m, m', s, ms, p);
    HeapFrom(m', s, ms);
  }

  lemma TagAfterWrite(m: Mem, m': Mem, s: Space, ms: int, p: int, q: int)
    requires HeapOk(m, s, ms) && Writable(s, ms, p) && WrotePayload(m, m', s, p) && q in s.chunks
    ensures Tagged(m', s.chunks, s.top, q)
  {
    hide HeapOk, Live, NextFits, Mapped;
    FreeChunk(m, s, ms, q);
    if InPayload(p, SizeOf(s, p), q + HEAD) { PayloadPlace(m, s, ms, p, q + HEAD, q); }
    if InPayload(p, SizeOf(s, p), q + SizeOf(s, q)) { PayloadPlace(m, s, ms, p, q + SizeOf(s, q), q); }
  }

  lemma RecordsAfterWrite(m: Mem, m': Mem, s: Space, ms: int, p: int)
    requires HeapOk(m, s, ms) && SegsOk(m, s, ms) && p in Live(s) && WrotePayload(m, m', s, p)
    ensures SegsOk(m', s, ms)
  {
    hide HeapOk, Shape, ListOk, RecordsPlaced, Live, WrotePayload;
    ShapeOf(m, s, ms);
    ListPlaced(m, s, ms, s.regs);
    PlacedRegions(s, ms);
    LiveWritable(m, s, ms, p);
    forall k: nat, a: int | k < |s.recs| && RecordWord(s, k, a) && a in m ensures a in m' && m'[a] == m[a] {
      RecordInUse(s, ms, k);
      RecordApart(s, ms, k, p);
      if InPayload(p, SizeOf(s, p), a) { assert false; }
      WroteElsewhere(m, m', s, p, a);
    }
    ListKept(m, m', s, s, ms, s.regs);
  }

  lemma WroteElsewhere(m: Mem, m': Mem, s: Space, p: int, a: int)
    requires WrotePayload(m, m', s, p) && a in m && !InPayload(p, SizeOf(s, p), a)
    ensures a in m' && m'[a] == m[a]
  {}

  lemma BackedAfterWrite(m: Mem, m': Mem, s: Space, ms: int, p: int)
    requires HeapOk(m, s, ms) && Writable(s, ms, p) && WrotePayload(m, m', s, p)
    ensures Backed(m', s.chunks, s.segs, s.top)
  {
    hide HeapOk, Live, Shape, Tiled, TopOk, Coalesced, OwnOk, DvOk, Tags;
    HeapShape(m, s, ms);
    EndOfTop(s, ms);
    var a := s.top + SizeOf(s, s.top) + HEAD;
    if InPayload(p, SizeOf(s, p), a) { PayloadPlace(m, s, ms, p, a, s.top); }
    forall f | f in s.segs ensures Mapped(m', f, s.segs[f] + 16) { assert Mapped(m, f, s.segs[f] + 16); }
  }

  /** Bins whose words are all as they were hold what they held. */
  lemma BinsUnder(m: Mem, m': Mem, f: Sizing, ms: int, h: Held, sm: Word32, tm: Word32)
    requires BinsHold(m, f, ms, h, sm, tm) && Chunks(m', f, ms) && forall a :: BinWord(f, ms, a) ==> SameWord(m, m', a)
    ensures BinsHold(m', f, ms, h, sm, tm)
  {
    hide BinsHold;
    BinsChunks(m, f, ms, h, sm, tm);
    forall q | q in f ensures SameLinks(m, m', q) && (!IsSmall(f[q]) ==> SameNode(m, m', q)) {
      ChunkFacts(m, f, ms, q);
      forall a | q + FD <= a < q + f[q] ensures SameWord(m, m', a) { assert BinWord(f, ms, a); }
    }
    forall a | InHeaders(ms, a) ensures SameWord(m, m', a) { assert BinWord(f, ms, a); }
    BinsSame(m, m', f, ms, h, sm, tm);
  }

  lemma BinsAfterWrite(m: Mem, m': Mem, s: Space, ms: int, p: int, f: Sizing, h: Held, sm: Word32, tm: Word32)
    requires HeapOk(m, s, ms) && Writable(s, ms, p) && WrotePayload(m, m', s, p)
    requires FreeOnes(s, f) && BinsHold(m, f, ms, h, sm, tm) && HeapOk(m', s, ms)
    ensures BinsHold(m', f, ms, h, sm, tm)
  {
    hide HeapOk, BinsHold, WrotePayload, Live, BinWord, FreeOnes;
    ChunksOf(m', s, ms, f);
    forall a | BinWord(f, ms, a) ensures SameWord(m, m', a) { BinWordKept(m, m', s, ms, p, f, a); }
    BinsUnder(m, m', f, ms, h, sm, tm);
  }

  lemma BinWordKept(m: Mem, m': Mem, s: Space, ms: int, p: int, f: Sizing, a: int)
    requires HeapOk(m, s, ms) && Writable(s, ms, p) && WrotePayload(m, m', s, p) && FreeOnes(s, f) && BinWord(f, ms, a)
    ensures SameWord(m, m', a)
  {
    hide HeapOk, BinWord;
    BinWordPlace(m, s, ms, f, a, p);
  }

  /** Writing into one of the allocator's own chunks, such as a record, leaves the heap, the bins, and all payloads as
      they are. */
  lemma OwnWrote(m: Mem, m': Mem, s: Space, ms: int, p: int, f: Sizing, h: Held, sm: Word32, tm: Word32)
    requires HeapOk(m, s, ms) && p in s.own && p != ms - 16 && WroteInside(m, m', s, p)
    requires FreeOnes(s, f) && BinsHold(m, f, ms, h, sm, tm)
    ensures HeapOk(m', s, ms) && BinsHold(m', f, ms, h, sm, tm) && PayloadKept(m, m', Live(s))
  {
    hide HeapOk, Shape, BinsHold, WrotePayload, WroteInside, FreeOnes, InPayload;
    OwnUsed(m, s, ms, p);
    InsideIsPayload(m, m', s, p);
    HeapAfterWrite(m, m', s, ms, p);
    BinsAfterWrite(m, m', s, ms, p, f, h, sm, tm);
    forall q: int, a: int | q in Live(s) && a in m && InPayload(q, Live(s)[q], a) ensures a in m' && m'[a] == m[a] {
      LiveWritable(m, s, ms, q);
      OtherPayload(m, m', s, ms, p, q, a);
    }
  }

  /** The same of the first two words of record `i`. */
  lemma RecordWritten(m: Mem, m': Mem, s: Space, ms: int, i: nat, base: int, size: nat, f: Sizing, h: Held, sm: Word32,
      tm: Word32)
    requires HeapOk(m, s, ms) && SegsOk(m, s, ms) && 0 < i <= |s.recs| && BinnedOk(s, f, {})
    requires BinsHold(m, f, ms, h, sm, tm)
    requires s.recs[i - 1] in m && s.recs[i - 1] + 8 in m
    requires m' == m[s.recs[i - 1] := Data(base)][s.recs[i - 1] + 8 := Data(size)]
    ensures HeapOk(m', s, ms) && BinsHold(m', f, ms, h, sm, tm) && PayloadKept(m, m', Live(s))
  {
    hide HeapOk, ListOk, RecordInMem, BinsHold, Live, PayloadKept;
    RecordPlaces(m, s, ms, s.regs, i);
    BinnedFree(s, f, {});
    RecordSize(m, s, ms, i - 1);
    OwnWrote(m, m', s, ms, s.recs[i - 1] - 16, f, h, sm, tm);
  }

  lemma RecordSize(m: Mem, s: Space, ms: int, k: nat)
    requires SegsOk(m, s, ms) && k < |s.recs|
    ensures SizeOf(s, s.recs[k] - 16) == RECORD_SIZE
  {
    hide RecordsPlaced;
    ListPlaced(m, s, ms, s.regs);
    PlacedRecord(s, ms, k);
  }

  /** Only words between the head of `p` and the next chunk have changed. */
  ghost predicate WroteInside(m: Mem, m': Mem, s: Space, p: int) {
    forall a :: a in m ==> a in m' && (m'[a] != m[a] ==> p + 16 <= a < p + SizeOf(s, p))
  }

  lemma InsideIsPayload(m: Mem, m': Mem, s: Space, p: int)
    requires WroteInside(m, m', s, p)
    ensures WrotePayload(m, m', s, p)
  {}

  lemma OwnUsed(m: Mem, s: Space, ms: int, p: int)
    requires HeapOk(m, s, ms) && p in s.own && p != ms - 16
    ensures Writable(s, ms, p)
  {
    hide Tiled, Tags, Backed, TopOk, Coalesced;
  }

  /** The words that `memcpy` reads and writes are there, and those written are payload of the destination only. */
  lemma CopyPlaces(m: Mem, s: Space, ms: int, d: int, p: int, n: nat)
    requires HeapOk(m, s, ms) && d in Live(s) && p in Live(s) && d != p
    requires n + CHUNK_OVERHEAD <= Live(s)[d] && n + CHUNK_OVERHEAD <= Live(s)[p]
    ensures Mapped(m, d + 16, d + 16 + n + 7) && Mapped(m, p + 16, p + 16 + n + 7)
    ensures Live(s)[d] == SizeOf(s, d) && SizeOf(s, d) % 16 == 0
    ensures d + Live(s)[d] <= p || p + Live(s)[p] <= d
  {
    hide HeapOk, Shape, Live, Mapped;
    UsedFacts(m, s, ms, d);
    UsedFacts(m, s, ms, p);
    MappedPart(m, d, d + s.chunks[d].size + 16, d + 16, d + 16 + n + 7);
    MappedPart(m, p, p + s.chunks[p].size + 16, p + 16, p + 16 + n + 7);
    ShapeOf(m, s, ms);
    ChunksApart(s, ms, d, p);
  }

  /** The words that are copied to are payload of the destination. */
  lemma CopyInPayload(m0: Mem, m1: Mem, m2: Mem, s: Space, p: int, n: nat)
    requires n + CHUNK_OVERHEAD <= SizeOf(s, p) && SizeOf(s, p) % 16 == 0
    requires ChangedIn(m0, m1, p + 16, WordAt(p + 16, n / 8) - 7)
    requires ChangedIn(m1, m2, WordAt(p + 16, n / 8), WordAt(p + 16, n / 8) + (if n % 8 == 0 then 0 else 1))
    ensures WrotePayload(m0, m2, s, p)
  {
    LastWord(n / 8, n % 8, SizeOf(s, p) / 16);
  }

  lemma LastWord(q: nat, r: nat, k: nat)
    requires r < 8 && 8 * q + r + 8 <= 16 * k
    ensures r != 0 ==> 8 * q + 16 <= 16 * k
  {}

  /** The bytes of a payload whose words are kept. */
  lemma KeptBytes(m: Mem, m': Mem, p: int, size: nat, n: nat)
    requires n + CHUNK_OVERHEAD <= size && size % 16 == 0 && Mapped(m, p + 16, p + size + 1)
    requires forall a :: InPayload(p, size, a) && a in m ==> a in m' && m'[a] == m[a]
    ensures Copied(m, m', p + 16, p + 16, n)
  {
    var b := p + 16;
    forall i: nat | i < n ensures ByteAt(m', b, i) == ByteAt(m, b, i) {
      ByteInside(i / 8, i % 8, n, size / 16);
    }
  }

  lemma ByteInside(q: nat, r: nat, n: nat, k: nat)
    requires r < 8 && 8 * q + r < n && n + 8 <= 16 * k
    ensures 8 * q + 16 <= 16 * k
  {}

  lemma PayloadMapped(m: Mem, s: Space, ms: int, p: int)
    requires HeapOk(m, s, ms) && p in Live(s)
    ensures SizeOf(s, p) == Live(s)[p] && SizeOf(s, p) % 16 == 0 && SizeOf(s, p) >= MIN_CHUNK_SIZE
    ensures Mapped(m, p + 16, p + SizeOf(s, p) + 1)
    ensures HasHead(m, p, SizeOf(s, p), true, p in s.chunks && s.chunks[p].pin)
  {
    hide HeapOk, Live;
    UsedFacts(m, s, ms, p);
  }

  lemma GaveThenTook(l: Sizing, p: int, q: int, n: nat)
    requires p in l && q !in l
    ensures l[q := n] - {p} == (l - {p})[q := n]
  {}

  /** Every chunk ends within the address space. */
  lemma AddressBound(m: Mem, s: Space, ms: int, p: int, leastAddr: int)
    requires HeapOk(m, s, ms) && p in Live(s) && SegsAbove(s.segs, leastAddr)
    ensures p + SizeOf(s, p) <= TWO64
  {
    hide HeapOk, Live, Shape, UsedPlace;
    UsedFacts(m, s, ms, p);
    UsedIn(m, s, p);
    ShapeOf(m, s, ms);
    StretchEnd(s, ms, p);
  }

  lemma StretchEnd(s: Space, ms: int, p: int)
    requires Shape(s, ms) && p in s.chunks
    ensures s.chunks[p].seg in s.segs && p + SizeOf(s, p) <= s.segs[s.chunks[p].seg]
  {
    hide Tiled, NextFits, TopOk, Coalesced, OwnOk;
    NextChunk(s.chunks, s.segs, p);
  }

  lemma CutFrontLive(l: Sizing, p: int, q: int, a: nat, b: nat)
    requires p != q
    ensures (l - {p})[p := a][q := b] - {p} == (l - {p})[q := b]
  {}

  /** A chunk has moved from `p` to `q` and then changed its size. */
  lemma MovedTwice(l: Sizing, l1: Sizing, l2: Sizing, p: int, q: int)
    requires q in l1 && q in l2 && l1 == (l - {p})[q := l1[q]] && l2 == (l1 - {q})[q := l2[q]] && (q == p || q !in l)
    ensures l2 == (l - {p})[q := l2[q]] && forall x :: x in l - {p} ==> x in l1 - {q} && (l1 - {q})[x] == (l - {p})[x]
  {}

  /** A chunk that has just been given, and then moved. */
  lemma GaveThenMoved(l: Sizing, l1: Sizing, l2: Sizing, p: int, q: int)
    requires p !in l && p in l1 && l1 == l[p := l1[p]] && q in l2 && l2 == (l1 - {p})[q := l2[q]]
    requires q == p || q !in l1
    ensures l2 == l[q := l2[q]] && l1 - {p} == l && q !in l
  {}
}
