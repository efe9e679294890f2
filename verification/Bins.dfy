/** The bins of `malloc_state`: together they hold exactly a given set of free chunks. */
module Bins {
  import opened Words
  import opened BinMap
  import opened TreeIndex
  import opened Rings
  import opened Tries
  import opened TrieMemory

  const NSMALLBINS: nat := 32

  /** `malloc_state` at `ms`: where its bin headers are, and where it ends. */
  function SmallBinAt(ms: int, i: nat): int { ms + 72 + 16 * i }
  function TreeBinAt(ms: int, i: nat): int { ms + 600 + 8 * i }
  const HEADERS: int := 88
  const HEADERS_END: int := 856
  const STATE_END: int := 928

  predicate IsSmall(s: nat) { s < MIN_LARGE_SIZE }

  /** What the bins hold, as lists and tries. */
  datatype Held = Held(small: seq<seq<int>>, trees: seq<Trie>)

  /** The free chunks of `f` lie in memory outside the state, apart from each other, and their heads say
      how large they are. */
  ghost predicate Chunks(m: Mem, f: Sizing, ms: int) {
    && ms > 0
    && Mapped(m, ms + HEADERS, ms + HEADERS_END)
    && NoOverlap(f)
    && (forall p :: p in f ==> ChunkOk(m, p, f[p], ms))
  }

  ghost predicate ChunkOk(m: Mem, p: int, s: nat, ms: int) {
    && p > 0 && (p >= ms + STATE_END || p + s <= ms)
    && s >= MIN_CHUNK_SIZE && s % 16 == 0 && s < 0x100_0000_0000
    && Mapped(m, p, p + s)
    && p + HEAD in m && m[p + HEAD].Head? && m[p + HEAD].size == s
  }

  ghost predicate SmallOk(m: Mem, f: Sizing, ms: int, i: nat, l: seq<int>, marked: bool) {
    && (marked <==> l != [])
    && (forall p :: p in l ==> p in f && f[p] == 8 * i && IsSmall(f[p]))
    && Apart(l)
    && (l != [] ==> Ring(m, [SmallBinAt(ms, i)] + l))
  }

  ghost predicate TreeOk(m: Mem, f: Sizing, ms: int, i: nat, t: Trie, marked: bool)
    requires i < NTREEBINS
  {
    && (marked <==> t.Node?)
    && NumAt(m, TreeBinAt(ms, i), AddrOf(t))
    && At(m, t, TreeBinAt(ms, i), i)
    && Ok(t, BinLo(i), BinBits(i)) && Holds(t, f)
    && (forall s :: s in Sizes(t) ==> ComputeTreeIndex(s) == i)
  }

  ghost predicate Smalls(m: Mem, f: Sizing, ms: int, small: seq<seq<int>>, marks: Word32) {
    |small| == NSMALLBINS && forall i :: 0 <= i < NSMALLBINS ==> SmallOk(m, f, ms, i, small[i], marks[i])
  }

  ghost predicate Trees(m: Mem, f: Sizing, ms: int, trees: seq<Trie>, marks: Word32) {
    |trees| == NTREEBINS && forall i :: 0 <= i < NTREEBINS ==> TreeOk(m, f, ms, i, trees[i], marks[i])
  }

  /** Every chunk is in the bin its size selects. */
  ghost predicate Complete(f: Sizing, h: Held)
    requires |h.small| == NSMALLBINS && |h.trees| == NTREEBINS
  {
    forall p :: p in f ==>
      if IsSmall(f[p]) then p in h.small[f[p] / 8]
      else ComputeTreeIndex(f[p]) < NTREEBINS && p in Addrs(h.trees[ComputeTreeIndex(f[p])])
  }

  /** The bins hold the chunks of `f` and no others, each in the one bin its size selects, and a map bit
      is set exactly for the bins that are not empty. */
  ghost predicate BinsHold(m: Mem, f: Sizing, ms: int, h: Held, smallmap: Word32, treemap: Word32) {
    && Chunks(m, f, ms)
    && Smalls(m, f, ms, h.small, smallmap)
    && Trees(m, f, ms, h.trees, treemap)
    && Complete(f, h)
  }

  /** A chunk of `f` or a bin header. */
  ghost predicate Known(f: Sizing, ms: int, a: int) { a in f || ms + 72 <= a < ms + HEADERS_END }

  ghost predicate InHeaders(ms: int, a: int) { ms + HEADERS <= a < ms + HEADERS_END }

  /** A word that only the bins use: in a bin header, or between the head and the end of a free chunk. */
  ghost predicate BinWord(f: Sizing, ms: int, a: int) {
    InHeaders(ms, a) || exists p: int :: p in f && p + FD <= a < p + f[p]
  }

  /** Memory changed in words of the bins only. */
  ghost predicate OnlyBins(m: Mem, m': Mem, f: Sizing, ms: int) {
    m'.Keys == m.Keys && forall a :: a in m && m'[a] != m[a] ==> BinWord(f, ms, a)
  }

  lemma {:induction false} TreesKept(m: Mem, m': Mem, f: Sizing, f': Sizing, ms: int, trees: seq<Trie>, marks: Word32,
      but: int)
    requires Trees(m, f, ms, trees, marks) && |trees| == NTREEBINS
    requires forall i, p :: 0 <= i < NTREEBINS && i != but && p in Addrs(trees[i]) && p in f ==>
      SameNode(m, m', p) && p in f' && f'[p] == f[p]
    requires forall i :: 0 <= i < NTREEBINS && i != but ==> SameWord(m, m', TreeBinAt(ms, i))
    ensures forall i :: 0 <= i < NTREEBINS && i != but ==> TreeOk(m', f', ms, i, trees[i], marks[i])
  {
    forall i | 0 <= i < NTREEBINS && i != but ensures TreeOk(m', f', ms, i, trees[i], marks[i]) {
      assert TreeOk(m, f, ms, i, trees[i], marks[i]);
      forall p | p in Addrs(trees[i]) ensures p in f { AddrHasSize(trees[i], f, p); }
      AtKept(m, m', trees[i], TreeBinAt(ms, i), i);
      HoldsKept(trees[i], f, f');
      assert SameWord(m, m', TreeBinAt(ms, i));
    }
  }

  lemma SmallsKept(m: Mem, m': Mem, f: Sizing, f': Sizing, ms: int, small: seq<seq<int>>, marks: Word32, but: int)
    requires Smalls(m, f, ms, small, marks)
    requires forall i, p :: 0 <= i < NSMALLBINS && i != but && p in small[i] && p in f ==>
      SameLinks(m, m', p) && p in f' && f'[p] == f[p]
    requires forall i :: 0 <= i < NSMALLBINS && i != but ==> SameLinks(m, m', SmallBinAt(ms, i))
    ensures forall i :: 0 <= i < NSMALLBINS && i != but ==> SmallOk(m', f', ms, i, small[i], marks[i])
  {
    forall i | 0 <= i < NSMALLBINS && i != but ensures SmallOk(m', f', ms, i, small[i], marks[i]) {
      assert SmallOk(m, f, ms, i, small[i], marks[i]);
      var c := [SmallBinAt(ms, i)] + small[i];
      if small[i] != [] {
        forall k | 0 <= k < |c| ensures SameLinks(m, m', c[k]) {
          assert k > 0 ==> c[k] in small[i];
        }
        RingKept(m, m', c);
      }
    }
  }

  /** Memory changed only in link words of the chunks in `s` and in the header words `[lo, hi)`. */
  ghost predicate Touches(m: Mem, m': Mem, g: Sizing, ms: int, s: set<int>, lo: int, hi: int) {
    && m'.Keys == m.Keys
    && ms + HEADERS <= lo && hi <= ms + HEADERS_END
    && (forall p :: p in s ==> p in g)
    && forall a :: a in m && m'[a] != m[a] ==>
         lo <= a < hi || exists p: int :: p in s && p in g && p + FD <= a < p + g[p]
  }

  lemma TouchesOnlyBins(m: Mem, m': Mem, g: Sizing, ms: int, s: set<int>, lo: int, hi: int)
    requires Touches(m, m', g, ms, s, lo, hi)
    ensures OnlyBins(m, m', g, ms)
  {}

  lemma UntouchedLinks(m: Mem, m': Mem, g: Sizing, ms: int, s: set<int>, lo: int, hi: int, q: int)
    requires Chunks(m, g, ms) && Touches(m, m', g, ms, s, lo, hi) && q in g && q !in s
    ensures SameLinks(m, m', q)
    ensures !IsSmall(g[q]) ==> SameNode(m, m', q)
  {
    assert ChunkOk(m, q, g[q], ms);
  }

  /** The heads stay where only the bins wrote. */
  lemma ChunksKept(m: Mem, m': Mem, g: Sizing, ms: int)
    requires Chunks(m, g, ms) && OnlyBins(m, m', g, ms)
    ensures Chunks(m', g, ms)
  {
    forall q | q in g ensures ChunkOk(m', q, g[q], ms) {
      assert ChunkOk(m, q, g[q], ms);
      forall p | p in g ensures !(p + FD <= q + HEAD < p + g[p]) {
        assert ChunkOk(m, p, g[p], ms);
      }
      assert !BinWord(g, ms, q + HEAD);
    }
  }

  lemma HeaderElsewhere(m: Mem, m': Mem, g: Sizing, ms: int, s: set<int>, lo: int, hi: int, a: int)
    requires Chunks(m, g, ms) && Touches(m, m', g, ms, s, lo, hi)
    requires InHeaders(ms, a) && !(lo <= a < hi)
    ensures SameWord(m, m', a)
  {
    forall p | p in s && p in g ensures !(p + FD <= a < p + g[p]) {
      assert ChunkOk(m, p, g[p], ms);
    }
  }

  /** The small bins that own neither the header words nor the chunks that were written to. */
  lemma SmallsUntouched(m: Mem, m': Mem, f: Sizing, f': Sizing, g: Sizing, ms: int, small: seq<seq<int>>, sm: Word32,
      s: set<int>, lo: int, hi: int, but: int)
    requires Smalls(m, f, ms, small, sm) && Chunks(m, g, ms) && Touches(m, m', g, ms, s, lo, hi)
    requires forall q :: q in f ==> q in g && g[q] == f[q]
    requires forall q :: q in s ==> !IsSmall(g[q]) || g[q] == 8 * but
    requires forall q :: q in f && q !in s ==> q in f' && f'[q] == f[q]
    requires forall j :: 0 <= j < NSMALLBINS && j != but ==>
      SmallBinAt(ms, j) + 32 <= lo || hi <= SmallBinAt(ms, j) + FD
    ensures forall j :: 0 <= j < NSMALLBINS && j != but ==> SmallOk(m', f', ms, j, small[j], sm[j])
  {
    forall j, q | 0 <= j < NSMALLBINS && j != but && q in small[j] && q in f
      ensures SameLinks(m, m', q) && q in f' && f'[q] == f[q]
    {
      assert SmallOk(m, f, ms, j, small[j], sm[j]);
      UntouchedLinks(m, m', g, ms, s, lo, hi, q);
    }
    forall j | 0 <= j < NSMALLBINS && j != but ensures SameLinks(m, m', SmallBinAt(ms, j)) {
      HeaderElsewhere(m, m', g, ms, s, lo, hi, SmallBinAt(ms, j) + FD);
      HeaderElsewhere(m, m', g, ms, s, lo, hi, SmallBinAt(ms, j) + BK);
    }
    SmallsKept(m, m', f, f', ms, small, sm, but);
  }

  lemma TreesUntouched(m: Mem, m': Mem, f: Sizing, f': Sizing, g: Sizing, ms: int, trees: seq<Trie>, tm: Word32,
      s: set<int>, lo: int, hi: int, but: int)
    requires Trees(m, f, ms, trees, tm) && Chunks(m, g, ms) && Touches(m, m', g, ms, s, lo, hi)
    requires forall q :: q in f ==> q in g && g[q] == f[q]
    requires forall q :: q in s ==> IsSmall(g[q]) || ComputeTreeIndex(g[q]) == but
    requires forall q :: q in f && q !in s ==> q in f' && f'[q] == f[q]
    requires forall j :: 0 <= j < NTREEBINS && j != but ==> TreeBinAt(ms, j) < lo || hi <= TreeBinAt(ms, j)
    ensures forall j :: 0 <= j < NTREEBINS && j != but ==> TreeOk(m', f', ms, j, trees[j], tm[j])
  {
    forall j, q | 0 <= j < NTREEBINS && j != but && q in Addrs(trees[j]) && q in f
      ensures SameNode(m, m', q) && q in f' && f'[q] == f[q]
    {
      assert TreeOk(m, f, ms, j, trees[j], tm[j]);
      AddrHasSize(trees[j], f, q);
      UntouchedLinks(m, m', g, ms, s, lo, hi, q);
    }
    forall j | 0 <= j < NTREEBINS && j != but ensures SameWord(m, m', TreeBinAt(ms, j)) {
      HeaderElsewhere(m, m', g, ms, s, lo, hi, TreeBinAt(ms, j));
    }
    TreesKept(m, m', f, f', ms, trees, tm, but);
  }

  lemma SmallsUpdated(m: Mem, f: Sizing, ms: int, small: seq<seq<int>>, sm: Word32, i: nat, l: seq<int>, sm': Word32)
    requires |small| == NSMALLBINS && i < NSMALLBINS
    requires forall j :: 0 <= j < NSMALLBINS && j != i ==> SmallOk(m, f, ms, j, small[j], sm[j]) && sm'[j] == sm[j]
    requires SmallOk(m, f, ms, i, l, sm'[i])
    ensures Smalls(m, f, ms, small[i := l], sm')
  {}

  lemma TreesUpdated(m: Mem, f: Sizing, ms: int, trees: seq<Trie>, tm: Word32, i: nat, t: Trie, tm': Word32)
    requires |trees| == NTREEBINS && i < NTREEBINS
    requires forall j :: 0 <= j < NTREEBINS && j != i ==> TreeOk(m, f, ms, j, trees[j], tm[j]) && tm'[j] == tm[j]
    requires TreeOk(m, f, ms, i, t, tm'[i])
    ensures Trees(m, f, ms, trees[i := t], tm')
  {}

  lemma ChunkFacts(m: Mem, g: Sizing, ms: int, p: int)
    requires Chunks(m, g, ms) && p in g
    ensures ChunkOk(m, p, g[p], ms)
  {}

  lemma HeldComplete(m: Mem, f: Sizing, ms: int, h: Held, sm: Word32, tm: Word32)
    requires BinsHold(m, f, ms, h, sm, tm)
    ensures |h.small| == NSMALLBINS && |h.trees| == NTREEBINS && Complete(f, h)
  {}

  /** What `BinsHold` says of one tree bin, and of one small bin. */
  lemma TreeBinFacts(m: Mem, f: Sizing, ms: int, h: Held, sm: Word32, tm: Word32, i: nat)
    requires BinsHold(m, f, ms, h, sm, tm) && i < NTREEBINS
    ensures Chunks(m, f, ms) && |h.small| == NSMALLBINS && |h.trees| == NTREEBINS
    ensures TreeOk(m, f, ms, i, h.trees[i], tm[i]) && (tm[i] <==> h.trees[i].Node?)
  {}

  lemma SmallBinFacts(m: Mem, f: Sizing, ms: int, h: Held, sm: Word32, tm: Word32, i: nat)
    requires BinsHold(m, f, ms, h, sm, tm) && i < NSMALLBINS
    ensures Chunks(m, f, ms) && |h.small| == NSMALLBINS && |h.trees| == NTREEBINS
    ensures SmallOk(m, f, ms, i, h.small[i], sm[i]) && (sm[i] <==> h.small[i] != [])
  {}
}
