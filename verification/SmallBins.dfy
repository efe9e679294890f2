/** Linking chunks into small bins and out of them. */
module SmallBins {
  import opened Words
  import opened BinMap
  import opened TreeIndex
  import opened Rings
  import opened Tries
  import opened TrieMemory
  import opened Bins

  /** `insert_small_chunk`: link behind the header, in front of the newest chunk. */
  function SmallInserted(m: Mem, ms: int, l: seq<int>, i: nat, p: int): Mem
    requires var b := SmallBinAt(ms, i);
      b + FD in m && p + FD in m && p + BK in m && (if l == [] then b else l[0]) + BK in m
  {
    var b := SmallBinAt(ms, i);
    LinkBetween(m, b, p, if l == [] then b else l[0])
  }

  lemma ApartFromHeader(m: Mem, f: Sizing, ms: int, i: nat, l: seq<int>)
    requires Chunks(m, f, ms) && i < NSMALLBINS && Apart(l) && forall p :: p in l ==> p in f
    ensures Apart([SmallBinAt(ms, i)] + l)
  {
    var b := SmallBinAt(ms, i);
    forall p | p in l ensures b + 16 <= p || p + 16 <= b { assert ChunkOk(m, p, f[p], ms); }
    forall k | 0 <= k < |l| ensures b + 16 <= l[k] || l[k] + 16 <= b { assert l[k] in l; }
  }

  lemma ApartFromNew(m: Mem, g: Sizing, ms: int, l: seq<int>, p: int)
    requires Chunks(m, g, ms) && p in g && Apart(l) && p !in l && forall q :: q in l ==> q in g
    ensures Apart([p] + l)
  {
    forall q | q in l ensures p + 16 <= q || q + 16 <= p { assert ChunkOk(m, p, g[p], ms) && ChunkOk(m, q, g[q], ms); }
    forall k | 0 <= k < |l| ensures p + 16 <= l[k] || l[k] + 16 <= p { assert l[k] in l; }
  }

  /** The words that `insert_small_chunk` reads and writes are there. */
  lemma SmallInsertReady(m: Mem, f: Sizing, ms: int, h: Held, sm: Word32, tm: Word32, p: int, s: nat)
    requires BinsHold(m, f, ms, h, sm, tm) && p !in f && IsSmall(s) && Chunks(m, f[p := s], ms)
    ensures var b := SmallBinAt(ms, s / 8); b + FD in m && b + BK in m && p + FD in m && p + BK in m
    ensures |h.small| == NSMALLBINS && (sm[s / 8] <==> h.small[s / 8] != [])
    ensures var l := h.small[s / 8];
      l != [] ==> l[0] in f && f[l[0]] == 8 * (s / 8) && l[0] + BK in m && NumAt(m, SmallBinAt(ms, s / 8) + FD, l[0])
  {
    var i, g := s / 8, f[p := s];
    var l, b := h.small[i], SmallBinAt(ms, i);
    assert SmallOk(m, f, ms, i, l, sm[i]);
    assert p in g && ChunkOk(m, p, g[p], ms);
    if l != [] {
      assert l[0] in l;
      assert ChunkOk(m, l[0], f[l[0]], ms);
      var c := [b] + l;
      assert Link(m, c[0], c[After(c, 0)]);
    }
  }

  lemma SmallInsertTouches(m: Mem, g: Sizing, ms: int, l: seq<int>, i: nat, p: int)
    requires Chunks(m, g, ms) && p in g && i < NSMALLBINS && (l != [] ==> l[0] in g)
    requires var b := SmallBinAt(ms, i);
      b + FD in m && p + FD in m && p + BK in m && (if l == [] then b else l[0]) + BK in m
    ensures var b := SmallBinAt(ms, i);
      Touches(m, SmallInserted(m, ms, l, i, p), g, ms, if l == [] then {p} else {p, l[0]}, b + FD, b + 32)
  {
    assert ChunkOk(m, p, g[p], ms);
    if l != [] {
      assert ChunkOk(m, l[0], g[l[0]], ms);
    }
  }

  /** Inserting a small chunk adds exactly that chunk to what the bins hold. */
  lemma SmallInsertOk(m: Mem, f: Sizing, ms: int, h: Held, sm: Word32, tm: Word32, p: int, s: nat, m': Mem)
    requires BinsHold(m, f, ms, h, sm, tm) && p !in f && IsSmall(s) && Chunks(m, f[p := s], ms)
    requires var b := SmallBinAt(ms, s / 8); b + FD in m && b + BK in m && p + FD in m && p + BK in m
    requires var l := h.small[s / 8]; l != [] ==> l[0] in f && f[l[0]] == 8 * (s / 8) && l[0] + BK in m
    requires m' == SmallInserted(m, ms, h.small[s / 8], s / 8, p)
    ensures BinsHold(m', f[p := s], ms, Held(h.small[s / 8 := [p] + h.small[s / 8]], h.trees), Or(sm, Idx2Bit(s / 8)),
        tm)
    ensures OnlyBins(m, m', f[p := s], ms)
  {
    hide SmallOk, Smalls, Trees, Chunks, Touches, OnlyBins, SmallInserted, Complete, NoOverlap;
    HeldComplete(m, f, ms, h, sm, tm);
    var i, g := s / 8, f[p := s];
    var l, b := h.small[i], SmallBinAt(ms, i);
    var touched := if l == [] then {p} else {p, l[0]};
    ChunkFacts(m, g, ms, p);
    SmallInsertTouches(m, g, ms, l, i, p);
    TouchesOnlyBins(m, m', g, ms, touched, b + FD, b + 32);
    ChunksKept(m, m', g, ms);
    SmallInsertSmalls(m, f, g, ms, h.small, sm, p, i, touched, m');
    SmallInsertTrees(m, f, g, ms, h.trees, tm, i, touched, m');
    CompleteInsertSmall(f, h, p, s);
  }

  lemma SmallInsertSmalls(m: Mem, f: Sizing, g: Sizing, ms: int, small: seq<seq<int>>, sm: Word32, p: int, i: nat,
      touched: set<int>, m': Mem)
    requires Smalls(m, f, ms, small, sm) && Chunks(m, f, ms) && Chunks(m, g, ms) && i < NSMALLBINS
    requires forall q :: q in f ==> q in g && g[q] == f[q]
    requires p in g && p !in f && g[p] == 8 * i && IsSmall(g[p])
    requires forall q :: q in touched ==> q in g && g[q] == 8 * i
    requires var b := SmallBinAt(ms, i);
      b + FD in m && p + FD in m && p + BK in m && (if small[i] == [] then b else small[i][0]) + BK in m
    requires m' == SmallInserted(m, ms, small[i], i, p)
    requires Touches(m, m', g, ms, touched, SmallBinAt(ms, i) + FD, SmallBinAt(ms, i) + 32)
    ensures Smalls(m', g, ms, small[i := [p] + small[i]], Or(sm, Idx2Bit(i)))
  {
    var b := SmallBinAt(ms, i);
    SmallsUntouched(m, m', f, g, g, ms, small, sm, touched, b + FD, b + 32, i);
    assert SmallOk(m, f, ms, i, small[i], sm[i]);
    SmallInsertRing(m, f, g, ms, i, small[i], p);
    SmallsUpdated(m', g, ms, small, sm, i, [p] + small[i], Or(sm, Idx2Bit(i)));
  }

  lemma SmallInsertTrees(m: Mem, f: Sizing, g: Sizing, ms: int, trees: seq<Trie>, tm: Word32, i: nat, touched: set<int>,
      m': Mem)
    requires Trees(m, f, ms, trees, tm) && Chunks(m, g, ms) && i < NSMALLBINS
    requires forall q :: q in f ==> q in g && g[q] == f[q]
    requires forall q :: q in touched ==> q in g && IsSmall(g[q])
    requires Touches(m, m', g, ms, touched, SmallBinAt(ms, i) + FD, SmallBinAt(ms, i) + 32)
    ensures Trees(m', g, ms, trees, tm)
  {
    var b := SmallBinAt(ms, i);
    TreesUntouched(m, m', f, g, g, ms, trees, tm, touched, b + FD, b + 32, -1);
  }

  lemma CompleteInsertSmall(f: Sizing, h: Held, p: int, s: nat)
    requires |h.small| == NSMALLBINS && |h.trees| == NTREEBINS && Complete(f, h) && IsSmall(s)
    ensures Complete(f[p := s], Held(h.small[s / 8 := [p] + h.small[s / 8]], h.trees))
  {
    var g, h' := f[p := s], Held(h.small[s / 8 := [p] + h.small[s / 8]], h.trees);
    forall q | q in g && IsSmall(g[q]) ensures q in h'.small[g[q] / 8] {
      if q != p { assert q in h.small[f[q] / 8]; }
    }
  }

  lemma SmallInsertRing(m: Mem, f: Sizing, g: Sizing, ms: int, i: nat, l: seq<int>, p: int)
    requires Chunks(m, g, ms) && i < NSMALLBINS && p in g && p !in f && g[p] == 8 * i && IsSmall(g[p])
    requires forall q :: q in f ==> q in g && g[q] == f[q]
    requires Chunks(m, f, ms) && SmallOk(m, f, ms, i, l, l != [])
    requires var b := SmallBinAt(ms, i);
      b + FD in m && p + FD in m && p + BK in m && (if l == [] then b else l[0]) + BK in m
    ensures SmallOk(SmallInserted(m, ms, l, i, p), g, ms, i, [p] + l, true)
  {
    var b := SmallBinAt(ms, i);
    ApartFromNew(m, g, ms, l, p);
    ApartFromHeader(m, g, ms, i, [p] + l);
    var c := [b] + l;
    var d := [b] + ([p] + l);
    ApartSwap(b, p, l);
    assert After(c, 0) == if l == [] then 0 else 1;
    assert c[After(c, 0)] == if l == [] then b else l[0];
    InsertSecond(m, c, p);
    assert InsertedSecond(c, p) == d;
  }

  // ----- unlinking -----

  /** The neighbours in its ring of the chunk at position `k` of bin `i`. */
  function Fd(ms: int, i: nat, l: seq<int>, k: nat): int
    requires k < |l|
  {
    if k + 1 < |l| then l[k + 1] else SmallBinAt(ms, i)
  }

  function Bk(ms: int, i: nat, l: seq<int>, k: nat): int
    requires k < |l|
  {
    if k > 0 then l[k - 1] else SmallBinAt(ms, i)
  }

  /** A small chunk is in the list of its bin. */
  lemma SmallPlace(m: Mem, f: Sizing, ms: int, h: Held, sm: Word32, tm: Word32, p: int) returns (k: nat)
    requires BinsHold(m, f, ms, h, sm, tm) && p in f && IsSmall(f[p])
    ensures var i := f[p] / 8;
      && i < NSMALLBINS && |h.small| == NSMALLBINS && |h.trees| == NTREEBINS && Chunks(m, f, ms)
      && k < |h.small[i]| && h.small[i][k] == p && SmallOk(m, f, ms, i, h.small[i], sm[i]) && sm[i]
  {
    hide TreeOk, Chunks;
    k :| 0 <= k < |h.small[f[p] / 8]| && h.small[f[p] / 8][k] == p;
  }

  /** The words that `unlink_small_chunk` reads, its run-time checks, and what it tells two cases apart by. */
  lemma SmallUnlinkReady(m: Mem, f: Sizing, ms: int, i: nat, l: seq<int>, k: nat)
    requires Chunks(m, f, ms) && i < NSMALLBINS && SmallOk(m, f, ms, i, l, true) && k < |l|
    ensures NumAt(m, l[k] + FD, Fd(ms, i, l, k)) && NumAt(m, l[k] + BK, Bk(ms, i, l, k))
    ensures NumAt(m, Fd(ms, i, l, k) + BK, l[k]) && NumAt(m, Bk(ms, i, l, k) + FD, l[k])
    ensures Fd(ms, i, l, k) == Bk(ms, i, l, k) <==> |l| == 1
    ensures l[k] in f && Known(f, ms, Fd(ms, i, l, k)) && Known(f, ms, Bk(ms, i, l, k))
    ensures l[k] != Fd(ms, i, l, k) && l[k] != Bk(ms, i, l, k)
  {
    hide Chunks, Ring, Apart, Link;
    var c := [SmallBinAt(ms, i)] + l;
    ApartFromHeader(m, f, ms, i, l);
    RingNeighbours(m, c, k + 1);
    assert c[k + 1] == l[k] && c[k] == Bk(ms, i, l, k) && c[After(c, k + 1)] == Fd(ms, i, l, k);
    assert forall j :: 0 <= j < |l| ==> l[j] in l;
  }

  lemma SmallUnlinkRing(m: Mem, f: Sizing, f': Sizing, ms: int, i: nat, l: seq<int>, k: nat)
    requires Chunks(m, f, ms) && i < NSMALLBINS && SmallOk(m, f, ms, i, l, true) && k < |l| && |l| > 1
    requires Fd(ms, i, l, k) + BK in m && Bk(ms, i, l, k) + FD in m
    requires forall q :: q in f && q != l[k] ==> q in f' && f'[q] == f[q]
    ensures SmallOk(LinkPast(m, Bk(ms, i, l, k), Fd(ms, i, l, k)), f', ms, i, Without(l, k), true)
  {
    var c := [SmallBinAt(ms, i)] + l;
    ApartFromHeader(m, f, ms, i, l);
    Delete(m, c, k + 1);
    assert Without(c, k + 1) == [SmallBinAt(ms, i)] + Without(l, k);
    WithoutMembers(l, k);
  }

  lemma WithoutMembers(l: seq<int>, k: nat)
    requires k < |l| && Apart(l)
    ensures Apart(Without(l, k))
    ensures forall p :: p in Without(l, k) <==> p in l && p != l[k]
  {
    var d := Without(l, k);
    assert forall j :: 0 <= j < |d| ==> d[j] == l[if j < k then j else j + 1];
    forall p | p in l && p != l[k] ensures p in d {
      var j :| 0 <= j < |l| && l[j] == p;
      assert d[if j < k then j else j - 1] == p;
    }
  }

  lemma SmallUnlinkTouches(m: Mem, f: Sizing, ms: int, i: nat, l: seq<int>, k: nat, m': Mem)
    requires Chunks(m, f, ms) && i < NSMALLBINS && k < |l| && forall p :: p in l ==> p in f
    requires Fd(ms, i, l, k) + BK in m && Bk(ms, i, l, k) + FD in m
    requires m' == if |l| == 1 then m else LinkPast(m, Bk(ms, i, l, k), Fd(ms, i, l, k))
    ensures Touches(m, m', f, ms, (set p | p in l), SmallBinAt(ms, i) + FD, SmallBinAt(ms, i) + 32)
  {
    if k > 0 { assert l[k - 1] in l; ChunkFacts(m, f, ms, l[k - 1]); }
    if k + 1 < |l| { assert l[k + 1] in l; ChunkFacts(m, f, ms, l[k + 1]); }
  }

  /** The map bit is cleared exactly when the bin becomes empty. */
  function SmallMapWithout(sm: Word32, i: nat, l: seq<int>): Word32
    requires i < NSMALLBINS
  {
    if |l| == 1 then And(sm, Not(Idx2Bit(i))) else sm
  }

  /** Unlinking a small chunk takes exactly that chunk from what the bins hold. */
  lemma SmallUnlinkOk(m: Mem, f: Sizing, ms: int, h: Held, sm: Word32, tm: Word32, i: nat, k: nat, m': Mem)
    requires BinsHold(m, f, ms, h, sm, tm) && i < NSMALLBINS && k < |h.small[i]|
    requires var l := h.small[i]; Fd(ms, i, l, k) + BK in m && Bk(ms, i, l, k) + FD in m
    requires var l := h.small[i]; m' == if |l| == 1 then m else LinkPast(m, Bk(ms, i, l, k), Fd(ms, i, l, k))
    ensures var l := h.small[i];
      BinsHold(m', f - {l[k]}, ms, Held(h.small[i := Without(l, k)], h.trees), SmallMapWithout(sm, i, l), tm)
    ensures OnlyBins(m, m', f, ms)
  {
    hide SmallOk, Smalls, Trees, Chunks, Touches, OnlyBins, LinkPast, Complete, Without, SmallMapWithout;
    HeldComplete(m, f, ms, h, sm, tm);
    var l, b := h.small[i], SmallBinAt(ms, i);
    var f', s := f - {l[k]}, set p | p in l;
    SmallOfBin(m, f, ms, h.small, sm, i);
    SmallUnlinkTouches(m, f, ms, i, l, k, m');
    TouchesOnlyBins(m, m', f, ms, s, b + FD, b + 32);
    ChunksKept(m, m', f, ms);
    ChunksStay(m', f, f', ms);
    SmallUnlinkSmalls(m, f, f', ms, h.small, sm, i, k, m');
    SmallUnlinkTrees(m, f, f', ms, h.trees, tm, i, s, m');
    CompleteUnlinkSmall(f, h, i, k);
  }

  lemma ChunksStay(m: Mem, f: Sizing, f': Sizing, ms: int)
    requires forall q :: q in f' ==> q in f && f'[q] == f[q]
    ensures Chunks(m, f, ms) ==> Chunks(m, f', ms)
  {}

  lemma SmallOfBin(m: Mem, f: Sizing, ms: int, small: seq<seq<int>>, sm: Word32, i: nat)
    requires Smalls(m, f, ms, small, sm) && i < NSMALLBINS
    ensures |small| == NSMALLBINS && Apart(small[i])
    ensures forall p :: p in small[i] ==> p in f && f[p] == 8 * i && IsSmall(f[p])
  {
    assert SmallOk(m, f, ms, i, small[i], sm[i]);
  }

  lemma SmallUnlinkSmalls(m: Mem, f: Sizing, f': Sizing, ms: int, small: seq<seq<int>>, sm: Word32, i: nat, k: nat,
      m': Mem)
    requires Smalls(m, f, ms, small, sm) && Chunks(m, f, ms) && i < NSMALLBINS && k < |small[i]|
    requires Fd(ms, i, small[i], k) + BK in m && Bk(ms, i, small[i], k) + FD in m
    requires m' == if |small[i]| == 1 then m else LinkPast(m, Bk(ms, i, small[i], k), Fd(ms, i, small[i], k))
    requires Touches(m, m', f, ms, (set p | p in small[i]), SmallBinAt(ms, i) + FD, SmallBinAt(ms, i) + 32)
    requires forall q :: q in f && q != small[i][k] ==> q in f' && f'[q] == f[q]
    ensures Smalls(m', f', ms, small[i := Without(small[i], k)], SmallMapWithout(sm, i, small[i]))
  {
    var l, b := small[i], SmallBinAt(ms, i);
    assert SmallOk(m, f, ms, i, l, sm[i]);
    SmallsUntouched(m, m', f, f', f, ms, small, sm, (set p | p in l), b + FD, b + 32, i);
    if |l| > 1 {
      SmallUnlinkRing(m, f, f', ms, i, l, k);
    }
    SmallsUpdated(m', f', ms, small, sm, i, Without(l, k), SmallMapWithout(sm, i, l));
  }

  lemma SmallUnlinkTrees(m: Mem, f: Sizing, f': Sizing, ms: int, trees: seq<Trie>, tm: Word32, i: nat, s: set<int>,
      m': Mem)
    requires Trees(m, f, ms, trees, tm) && Chunks(m, f, ms) && i < NSMALLBINS
    requires forall q :: q in s ==> q in f && IsSmall(f[q])
    requires Touches(m, m', f, ms, s, SmallBinAt(ms, i) + FD, SmallBinAt(ms, i) + 32)
    requires forall q :: q in f && q !in s ==> q in f' && f'[q] == f[q]
    ensures Trees(m', f', ms, trees, tm)
  {
    var b := SmallBinAt(ms, i);
    TreesUntouched(m, m', f, f', f, ms, trees, tm, s, b + FD, b + 32, -1);
  }

  lemma CompleteUnlinkSmall(f: Sizing, h: Held, i: nat, k: nat)
    requires |h.small| == NSMALLBINS && |h.trees| == NTREEBINS && Complete(f, h)
    requires i < NSMALLBINS && k < |h.small[i]| && Apart(h.small[i])
    ensures Complete(f - {h.small[i][k]}, Held(h.small[i := Without(h.small[i], k)], h.trees))
  {
    WithoutMembers(h.small[i], k);
  }
}
