/** Whole runs: one mspace, and a client program that allocates, moves, writes and frees blocks under names of its own.
    */
module Runs {
  import opened Words
  import opened BinMap
  import opened Tries
  import opened Bins
  import opened HeapMemory
  import opened Freeing
  import opened Bytes
  import opened Clients
  import opened Regions
  import opened Records
  import opened Start
  import opened Bitwise
  import opened Effects
  import opened Mspaces
  import Growth
  import Requests

  // ----- what the client knows -----

  /** What a client does with the block that it calls `name`. */
  datatype Command =
    | Malloc(name: nat, bytes: nat)
    | Memalign(name: nat, alignment: nat, bytes: nat)
    | Realloc(name: nat, bytes: nat)
    | Free(name: nat)
    | Write(name: nat, offset: nat, value: int)
    | Trim(pad: nat)

  /** A block: where it is, how many bytes the client asked for and with what alignment, and what it has written last.
      */
  datatype Block = Block(at: int, size: nat, alignment: nat, bytes: map<nat, int>)

  type Ledger = map<nat, Block>

  /** The arguments that C types and the documentation allow. */
  predicate Legal(c: Command) {
    match c
    case Malloc(_, bytes) => bytes < TWO64
    case Memalign(_, alignment, bytes) => alignment <= 0x8000_0000_0000_0000 && bytes < TWO64
    case Realloc(_, bytes) => bytes < TWO64
    case Free(_) => true
    case Write(_, _, value) => 0 <= value < 256
    case Trim(pad) => pad < TWO64
  }

  function Below(b: map<nat, int>, n: nat): map<nat, int> { map k | k in b && k < n :: b[k] }

  /** What the client knows after a command that has returned `r`. A client does not ask for a second block under a name
      that is in use, and writes only inside a block that it holds; such commands do nothing. */
  function After(l: Ledger, c: Command, r: int): Ledger {
    match c
    case Malloc(n, bytes) => if n in l || r == 0 then l else l[n := NewBlock(r, bytes, MALLOC_ALIGNMENT)]
    case Memalign(n, alignment, bytes) => if n in l || r == 0 then l else l[n := NewBlock(r, bytes, alignment)]
    case Realloc(n, bytes) =>
      if r == 0 then l
      else if n in l then l[n := MovedBlock(l[n], r, bytes)] else l[n := NewBlock(r, bytes, MALLOC_ALIGNMENT)]
    case Free(n) => l - {n}
    case Write(n, k, v) => if n in l && k < l[n].size then l[n := l[n].(bytes := l[n].bytes[k := v])] else l
    case Trim(_) => l
  }

  function NewBlock(r: int, bytes: nat, alignment: nat): Block { Block(r, bytes, alignment, map[]) }

  /** A block that has stayed keeps its alignment; one that has moved has that of `mspace_malloc`. */
  function MovedBlock(b: Block, r: int, bytes: nat): Block {
    Block(r, bytes, if r == b.at then b.alignment else MALLOC_ALIGNMENT, Below(b.bytes, bytes))
  }

  /** What it knows after the whole program, given what each command has returned. */
  function Replay(program: seq<Command>, returned: seq<int>): Ledger
    requires |program| == |returned|
  {
    if program == [] then map[]
    else var k := |program| - 1; After(Replay(program[..k], returned[..k]), program[k], returned[k])
  }

  // ----- what the mspace must agree with -----

  predicate Names(l: Ledger, n: nat, p: int) { n in l && l[n].at == p + 16 }

  ghost predicate Named(l: Ledger, p: int) { exists n :: Names(l, n, p) }

  /** The blocks are exactly the chunks in use, each under one name and large enough. */
  ghost predicate Blocks(live: Sizing, l: Ledger) {
    && (forall n :: n in l ==> l[n].at - 16 in live && l[n].size + CHUNK_OVERHEAD <= live[l[n].at - 16])
    && (forall n, k :: n in l && k in l && l[n].at == l[k].at ==> n == k)
    && (forall p: int :: p in live ==> Named(l, p))
  }

  /** All bytes of a block are in memory as last written. */
  ghost predicate Intact(m: Mem, b: Block) {
    forall k :: k in b.bytes ==> k < b.size && ByteAt(m, b.at, k) == b.bytes[k]
  }

  ghost predicate Agrees(m: Mem, live: Sizing, l: Ledger) { Blocks(live, l) && forall n :: n in l ==> Intact(m, l[n]) }

  /** Blocks are at multiples of a power of two that is not less than the alignment asked for. */
  ghost predicate AllAligned(l: Ledger) { forall n :: n in l ==> AlignedTo(l[n].at, l[n].alignment) }

  /** Blocks do not overlap. */
  ghost predicate Separate(l: Ledger) {
    && (forall n :: n in l ==> l[n].at > 16 && l[n].at % 16 == 0)
    && (forall n, k :: n in l && k in l && n != k ==> l[n].at + l[n].size <= l[k].at || l[k].at + l[k].size <= l[n].at)
  }

  ghost predicate PayloadsMapped(m: Mem, live: Sizing) {
    forall p: int :: p in live ==> live[p] % 16 == 0 && Mapped(m, p + 16, p + live[p] + 1)
  }

  lemma AllMapped(m: Mem, s: Space, ms: int)
    requires HeapOk(m, s, ms)
    ensures PayloadsMapped(m, Live(s))
  {
    hide HeapOk, Live, Mapped;
    forall p: int | p in Live(s)
      ensures Live(s)[p] % 16 == 0 && Mapped(m, p + 16, p + Live(s)[p] + 1)
    {
      PayloadMapped(m, s, ms, p);
    }
  }

  lemma BlocksSeparate(m: Mem, s: Space, ms: int, l: Ledger)
    requires HeapOk(m, s, ms) && Blocks(Live(s), l)
    ensures Separate(l)
  {
    hide HeapOk, Live, Shape, Named;
    ShapeOf(m, s, ms);
    forall n | n in l ensures l[n].at > 16 && l[n].at % 16 == 0 { LiveSize(m, s, ms, l[n].at - 16); }
    forall n, k | n in l && k in l && n != k
      ensures l[n].at + l[n].size <= l[k].at || l[k].at + l[k].size <= l[n].at
    {
      LiveApart(m, s, ms, l[n].at - 16, l[k].at - 16);
    }
  }

  lemma LiveApart(m: Mem, s: Space, ms: int, p: int, q: int)
    requires HeapOk(m, s, ms) && p in Live(s) && q in Live(s) && p != q
    ensures p + Live(s)[p] <= q || q + Live(s)[q] <= p
  {
    hide HeapOk, Shape;
    ShapeOf(m, s, ms);
    ChunksApart(s, ms, p, q);
  }

  // ----- one command -----

  /** What a command does to the heap, and what it returns: commands that make no sense do nothing, all others are
      carried out. */
  ghost predicate StepDoes(a: seq<Answer>, ms: int, v: View, l: Ledger, c: Command, r: int, v': View) {
    match c
    case Malloc(n, bytes) => if n in l then r == 0 && v' == v else Growth.MallocDoes(a, v, NeedFor(bytes), r, v')
    case Memalign(n, alignment, bytes) =>
      if n in l then r == 0 && v' == v else Requests.MemalignDoes(a, v, alignment, bytes, r, v')
    case Realloc(n, bytes) => Requests.ReallocDoes(a, v, ms, if n in l then l[n].at else 0, bytes, r, v')
    case Free(n) => r == 0 && if n in l then FreeDoes(a, v, ms, l[n].at - 16, v') else v' == v
    case Write(_, _, _) => r == 0 && v' == v
    case Trim(pad) =>
      TrimDoes(a, v, ms, pad, v') && r == if Footprint(v'.space.regs) < Footprint(v.space.regs) then 1 else 0
  }

  predicate Asks(c: Command) { c.Malloc? || c.Memalign? || c.Realloc? }

  /** When a request for memory is answered with null. */
  ghost predicate Refused(a: seq<Answer>, v: View, l: Ledger, c: Command) {
    match c
    case Malloc(n, bytes) => n in l || Growth.Fails(a, v, NeedFor(bytes))
    case Memalign(n, alignment, bytes) => n in l || Requests.MemalignFails(a, v, alignment, bytes)
    case Realloc(n, bytes) =>
      || (n in l && l[n].at != 0 && bytes >= MAX_REQUEST)
      || (Growth.Fails(a, v, NeedFor(bytes))
          && (n in l && l[n].at != 0 ==> !CanReach(v.space, l[n].at - 16, NeedFor(bytes))))
    case _ => true
  }

  /** Only the conditions that it names keep a program from its memory. */
  lemma ZeroIffRefused(a: seq<Answer>, ms: int, v: View, l: Ledger, c: Command, r: int, v': View)
    requires StepDoes(a, ms, v, l, c, r, v') && Asks(c)
    ensures r == 0 <==> Refused(a, v, l, c)
  {
    hide Growth.MallocDoes, Growth.Fails;
    match c
    case Malloc(n, bytes) => if n !in l { MallocZero(a, v, NeedFor(bytes), r, v'); }
    case Memalign(n, alignment, bytes) => if n !in l { MemalignZero(a, v, alignment, bytes, r, v'); }
    case Realloc(n, bytes) =>
      var at := if n in l then l[n].at else 0;
      if at == 0 {
        MallocZero(a, v, NeedFor(bytes), r, v');
      } else if bytes < MAX_REQUEST && !CanReach(v.space, at - 16, NeedFor(bytes)) {
        var v1 :| Growth.MallocDoes(a, v, NeedFor(bytes), r, v1);
        MallocZero(a, v, NeedFor(bytes), r, v1);
      }
  }

  lemma MallocZero(a: seq<Answer>, v: View, nb: nat, r: int, v': View)
    requires Growth.MallocDoes(a, v, nb, r, v')
    ensures r == 0 <==> Growth.Fails(a, v, nb)
  {}

  lemma MemalignZero(a: seq<Answer>, v: View, alignment: nat, bytes: nat, r: int, v': View)
    requires Requests.MemalignDoes(a, v, alignment, bytes, r, v')
    ensures r == 0 <==> Requests.MemalignFails(a, v, alignment, bytes)
  {
    hide Growth.MallocDoes, Growth.Fails, RoundsTo, Requests.AlignFails, Requests.AlignDoes;
    if alignment <= MALLOC_ALIGNMENT {
      MallocZero(a, v, NeedFor(bytes), r, v');
    } else {
      var al :| RoundsTo(alignment, al) && Requests.AlignDoes(a, v, al, bytes, r, v');
      AlignZero(a, v, al, bytes, r, v');
      Requests.MemalignFailsIs(a, v, alignment, bytes, al);
    }
  }

  lemma AlignZero(a: seq<Answer>, v: View, al: nat, bytes: nat, r: int, v': View)
    requires Requests.AlignDoes(a, v, al, bytes, r, v')
    ensures r == 0 <==> Requests.AlignFails(a, v, al, bytes)
  {
    hide Growth.MallocDoes, Growth.Fails;
    if bytes < MAX_REQUEST - al {
      var nb := NeedFor(Requests.PaddedFor(al, bytes));
      var v1, at1 :|
        && Growth.MallocDoes(a, v, nb, at1, v1)
        && (if at1 == 0 then r == 0 && v' == v1
            else Requests.CutDoes(v1, at1 - 16, al, Request2Size(bytes), r, v'));
      MallocZero(a, v, nb, at1, v1);
    }
  }

  lemma StaysIntact(m: Mem, m': Mem, live: Sizing, b: Block)
    requires Intact(m, b) && b.at - 16 in live && b.size + CHUNK_OVERHEAD <= live[b.at - 16]
    requires PayloadsMapped(m, live) && PayloadKept(m, m', live)
    ensures Intact(m', b)
  {
    var p := b.at - 16;
    KeptBytes(m, m', p, live[p], b.size);
  }

  lemma Untouched(m: Mem, m': Mem, live: Sizing, l: Ledger)
    requires Agrees(m, live, l) && PayloadsMapped(m, live) && PayloadKept(m, m', live)
    ensures Agrees(m', live, l)
  {
    hide Intact, PayloadsMapped, PayloadKept, Named;
    forall n | n in l ensures Intact(m', l[n]) { StaysIntact(m, m', live, l[n]); }
  }

  /** All blocks but the one called `n`, if any, stay as they are. */
  lemma OthersIntact(m: Mem, m': Mem, live: Sizing, l: Ledger, n: nat)
    requires Agrees(m, live, l) && PayloadsMapped(m, live)
    requires PayloadKept(m, m', if n in l then live - {l[n].at - 16} else live)
    ensures forall k :: k in l && k != n ==> Intact(m', l[k])
  {
    hide Intact, PayloadsMapped, PayloadKept, Named;
    forall k | k in l && k != n ensures Intact(m', l[k]) {
      var rest := if n in l then live - {l[n].at - 16} else live;
      FewerMapped(m, live, rest);
      StaysIntact(m, m', rest, l[k]);
    }
  }

  lemma FewerMapped(m: Mem, live: Sizing, rest: Sizing)
    requires PayloadsMapped(m, live) && forall p: int :: p in rest ==> p in live && rest[p] == live[p]
    ensures PayloadsMapped(m, rest)
  {
    hide Mapped;
  }

  lemma StillNamed(l: Ledger, l': Ledger, p: int, n: nat)
    requires Named(l, p) && (n in l ==> l[n].at != p + 16)
    requires forall k :: k in l && k != n ==> k in l' && l'[k].at == l[k].at
    ensures Named(l', p)
  {
    var k :| Names(l, k, p);
    assert Names(l', k, p);
  }

  lemma NewlyNamed(l: Ledger, n: nat)
    requires n in l
    ensures Named(l, l[n].at - 16)
  {
    assert Names(l, n, l[n].at - 16);
  }

  lemma BlocksGiven(live: Sizing, live': Sizing, l: Ledger, n: nat, b: Block)
    requires Blocks(live, l) && n !in l && b.at - 16 !in live && b.at - 16 in live'
    requires live' == live[b.at - 16 := live'[b.at - 16]] && b.size + CHUNK_OVERHEAD <= live'[b.at - 16]
    ensures Blocks(live', l[n := b])
  {
    hide Named;
    var l' := l[n := b];
    forall p: int | p in live' ensures Named(l', p) {
      if p == b.at - 16 { NewlyNamed(l', n); } else { StillNamed(l, l', p, n); }
    }
  }

  lemma BlocksGone(live: Sizing, l: Ledger, n: nat)
    requires Blocks(live, l) && n in l
    ensures Blocks(live - {l[n].at - 16}, l - {n})
  {
    hide Named;
    var rest := live - {l[n].at - 16};
    forall p: int | p in rest ensures Named(l - {n}, p) { StillNamed(l, l - {n}, p, n); }
  }

  lemma GoneThenGiven(l: Ledger, n: nat, b: Block)
    ensures (l - {n})[n := b] == l[n := b]
  {}

  lemma BlocksChanged(live: Sizing, live': Sizing, l: Ledger, n: nat, b: Block)
    requires Blocks(live, l) && n in l && b.at - 16 in live' && (b.at == l[n].at || b.at - 16 !in live)
    requires live' == (live - {l[n].at - 16})[b.at - 16 := live'[b.at - 16]]
    requires b.size + CHUNK_OVERHEAD <= live'[b.at - 16]
    ensures Blocks(live', l[n := b])
  {
    hide Blocks;
    BlocksGone(live, l, n);
    BlocksGiven(live - {l[n].at - 16}, live', l - {n}, n, b);
    GoneThenGiven(l, n, b);
  }

  /** A new block. */
  lemma Given(m: Mem, m': Mem, live: Sizing, live': Sizing, l: Ledger, n: nat, r: int, bytes: nat, alignment: nat)
    requires Agrees(m, live, l) && PayloadsMapped(m, live) && PayloadKept(m, m', live) && n !in l
    requires r - 16 !in live && r - 16 in live' && live' == live[r - 16 := live'[r - 16]]
    requires bytes + CHUNK_OVERHEAD <= live'[r - 16]
    ensures Agrees(m', live', l[n := NewBlock(r, bytes, alignment)])
  {
    hide PayloadsMapped, PayloadKept, Blocks;
    OthersIntact(m, m', live, l, n);
    BlocksGiven(live, live', l, n, NewBlock(r, bytes, alignment));
  }

  /** A block is gone. */
  lemma Gone(m: Mem, m': Mem, live: Sizing, l: Ledger, n: nat)
    requires Agrees(m, live, l) && PayloadsMapped(m, live) && n in l && PayloadKept(m, m', live - {l[n].at - 16})
    ensures Agrees(m', live - {l[n].at - 16}, l - {n})
  {
    hide PayloadsMapped, PayloadKept, Blocks, Intact;
    OthersIntact(m, m', live, l, n);
    BlocksGone(live, l, n);
  }

  /** A block has another size, and perhaps another place. */
  lemma Changed(m: Mem, m': Mem, live: Sizing, live': Sizing, l: Ledger, n: nat, r: int, bytes: nat)
    requires Agrees(m, live, l) && PayloadsMapped(m, live) && n in l && PayloadKept(m, m', live - {l[n].at - 16})
    requires r - 16 in live' && live' == (live - {l[n].at - 16})[r - 16 := live'[r - 16]]
    requires (r == l[n].at || r - 16 !in live) && bytes + CHUNK_OVERHEAD <= live'[r - 16]
    requires l[n].at - 16 in live && live[l[n].at - 16] >= CHUNK_OVERHEAD
    requires var s := live[l[n].at - 16] - CHUNK_OVERHEAD; Copied(m, m', l[n].at, r, if s < bytes then s else bytes)
    ensures Agrees(m', live', l[n := MovedBlock(l[n], r, bytes)])
  {
    hide PayloadsMapped, PayloadKept, Blocks, Intact;
    OthersIntact(m, m', live, l, n);
    BlocksChanged(live, live', l, n, MovedBlock(l[n], r, bytes));
    BlockCovered(live, l, n);
    BlockCopied(m, m', l[n], r, bytes, live[l[n].at - 16] - CHUNK_OVERHEAD);
  }

  lemma BlockCovered(live: Sizing, l: Ledger, n: nat)
    requires Blocks(live, l) && n in l
    ensures l[n].at - 16 in live && l[n].size + CHUNK_OVERHEAD <= live[l[n].at - 16]
  {}

  lemma BlockCopied(m: Mem, m': Mem, b: Block, r: int, bytes: nat, s: nat)
    requires Intact(m, b) && b.size <= s && Copied(m, m', b.at, r, if s < bytes then s else bytes)
    ensures Intact(m', MovedBlock(b, r, bytes))
  {}

  /** The client's own write. */
  lemma Wrote(m: Mem, m': Mem, live: Sizing, l: Ledger, n: nat, k: nat, v: int)
    requires Agrees(m, live, l) && PayloadsMapped(m, live) && n in l && k < l[n].size && 0 <= v < 256
    requires PayloadKept(m, m', live - {l[n].at - 16})
    requires var w := WordAt(l[n].at, k / 8); w in m && m' == Store(m, w, Data(SetByte(Bits(m[w]), k % 8, v)))
    ensures Agrees(m', live, l[n := l[n].(bytes := l[n].bytes[k := v])])
  {
    hide PayloadsMapped, PayloadKept, Blocks, Intact;
    var b := l[n].(bytes := l[n].bytes[k := v]);
    OthersIntact(m, m', live, l, n);
    BlockCovered(live, l, n);
    assert live == (live - {b.at - 16})[b.at - 16 := live[b.at - 16]];
    BlocksChanged(live, live, l, n, b);
    BlockWrote(m, m', l[n], k, v);
  }

  lemma BlockWrote(m: Mem, m': Mem, b: Block, k: nat, v: int)
    requires Intact(m, b) && k < b.size && 0 <= v < 256
    requires var w := WordAt(b.at, k / 8); w in m && m' == Store(m, w, Data(SetByte(Bits(m[w]), k % 8, v)))
    ensures Intact(m', b.(bytes := b.bytes[k := v]))
  {
    var w := WordAt(b.at, k / 8);
    forall i: nat ensures ByteAt(m', b.at, i) == if i == k then v else ByteAt(m, b.at, i) {
      if i / 8 == k / 8 {
        SetByteBytes(Bits(m[w]), k % 8, v, i % 8);
        assert i == 8 * (i / 8) + i % 8 && k == 8 * (k / 8) + k % 8;
      }
    }
  }

  lemma EnoughFor(m: Mspace, bytes: nat, p: int)
    requires m.Valid() && p in Live(m.space) && NeedFor(bytes) <= Live(m.space)[p]
    ensures bytes + CHUNK_OVERHEAD <= Live(m.space)[p] && AlignedTo(p + 16, MALLOC_ALIGNMENT)
  {
    hide BinsHold, HeapOk, BinnedOk, Live, SegsOk, Headed, Request2Size, AlignedTo;
    LiveSize(m.mem, m.space, m.ms, p);
    SixteenAligned(p + 16, MALLOC_ALIGNMENT);
  }

  method RunMalloc(m: Mspace, l: Ledger, n: nat, bytes: nat) returns (r: int)
    requires m.Valid() && bytes < TWO64 && Agrees(m.mem, Live(m.space), l) && AllAligned(l) && n !in l
    modifies m
    ensures m.Valid() && (m.asked == old(m.asked) ==> m.SegmentsKept()) && m.asked >= old(m.asked)
    ensures StepDoes(m.answers, m.ms, old(m.Seen()), l, Malloc(n, bytes), r, m.Seen())
    ensures Agrees(m.mem, Live(m.space), After(l, Malloc(n, bytes), r)) && AllAligned(After(l, Malloc(n, bytes), r))
  {
    hide BinsHold, HeapOk, BinnedOk, Live, SegsOk, Headed, PayloadKept, Agrees, PayloadsMapped, AlignedTo;
    hide Growth.MallocDoes;
    ghost var m0, l0 := m.mem, Live(m.space);
    AllMapped(m.mem, m.space, m.ms);
    r := Growth.Malloc(m, bytes);
    if r != 0 {
      EnoughFor(m, bytes, r - 16);
      Given(m0, m.mem, l0, Live(m.space), l, n, r, bytes, MALLOC_ALIGNMENT);
    }
  }

  method RunMemalign(m: Mspace, l: Ledger, n: nat, alignment: nat, bytes: nat) returns (r: int)
    requires m.Valid() && alignment <= 0x8000_0000_0000_0000 && bytes < TWO64 && Agrees(m.mem, Live(m.space), l)
    requires AllAligned(l) && n !in l
    modifies m
    ensures m.Valid() && (m.asked == old(m.asked) ==> m.SegmentsKept()) && m.asked >= old(m.asked)
    ensures StepDoes(m.answers, m.ms, old(m.Seen()), l, Memalign(n, alignment, bytes), r, m.Seen())
    ensures var l' := After(l, Memalign(n, alignment, bytes), r); Agrees(m.mem, Live(m.space), l') && AllAligned(l')
  {
    hide BinsHold, HeapOk, BinnedOk, Live, SegsOk, Headed, PayloadKept, Agrees, PayloadsMapped, AlignedTo;
    hide Requests.MemalignDoes;
    ghost var m0, l0 := m.mem, Live(m.space);
    AllMapped(m.mem, m.space, m.ms);
    r := Requests.Memalign(m, alignment, bytes);
    if r != 0 {
      Given(m0, m.mem, l0, Live(m.space), l, n, r, bytes, alignment);
    }
  }

  method RunFree(m: Mspace, l: Ledger, n: nat)
    requires m.Valid() && Agrees(m.mem, Live(m.space), l)
    modifies m
    ensures m.Valid() && (old(m.Fixed()) ==> m.SegmentsKept()) && m.asked >= old(m.asked)
    ensures Agrees(m.mem, Live(m.space), l - {n})
    ensures StepDoes(m.answers, m.ms, old(m.Seen()), l, Free(n), 0, m.Seen())
  {
    hide BinsHold, HeapOk, BinnedOk, Live, SegsOk, Headed, PayloadKept, PayloadsMapped, Blocks, Intact, FreeDoes;
    ghost var m0, l0 := m.mem, Live(m.space);
    AllMapped(m.mem, m.space, m.ms);
    if n in l {
      BlockCovered(l0, l, n);
      PointersPositive(m, l0, l, n);
      m.Free(l[n].at);
      Gone(m0, m.mem, l0, l, n);
    } else {
      m.Free(0);
      assert l - {n} == l;
    }
  }

  method RunRealloc(m: Mspace, l: Ledger, n: nat, bytes: nat) returns (r: int)
    requires m.Valid() && bytes < TWO64 && Agrees(m.mem, Live(m.space), l) && AllAligned(l)
    modifies m
    ensures m.Valid() && (m.asked == old(m.asked) && old(m.Fixed()) ==> m.SegmentsKept()) && m.asked >= old(m.asked)
    ensures StepDoes(m.answers, m.ms, old(m.Seen()), l, Realloc(n, bytes), r, m.Seen())
    ensures Agrees(m.mem, Live(m.space), After(l, Realloc(n, bytes), r)) && AllAligned(After(l, Realloc(n, bytes), r))
  {
    hide BinsHold, HeapOk, BinnedOk, Live, SegsOk, Headed, PayloadKept, PayloadsMapped, Blocks, Intact, Copied, Below;
    hide AlignedTo, Requests.ReallocDoes;
    ghost var m0, l0 := m.mem, Live(m.space);
    AllMapped(m.mem, m.space, m.ms);
    if n in l {
      BlockCovered(l0, l, n);
      PointersPositive(m, l0, l, n);
      r := Requests.Realloc(m, l[n].at, bytes);
      if r != 0 {
        EnoughFor(m, bytes, r - 16);
        Changed(m0, m.mem, l0, Live(m.space), l, n, r, bytes);
      }
    } else {
      r := Requests.Realloc(m, 0, bytes);
      if r != 0 {
        EnoughFor(m, bytes, r - 16);
        Given(m0, m.mem, l0, Live(m.space), l, n, r, bytes, MALLOC_ALIGNMENT);
      }
    }
  }

  lemma PointersPositive(m: Mspace, live: Sizing, l: Ledger, n: nat)
    requires m.Valid() && live == Live(m.space) && n in l && l[n].at - 16 in live
    ensures l[n].at != 0
  {
    hide BinsHold, HeapOk, BinnedOk, Live, SegsOk, Headed;
    LiveSize(m.mem, m.space, m.ms, l[n].at - 16);
  }

  /** A client writes one byte. */
  method RunWrite(m: Mspace, l: Ledger, n: nat, k: nat, v: int)
    requires m.Valid() && Agrees(m.mem, Live(m.space), l) && 0 <= v < 256
    modifies m`mem
    ensures m.Valid() && m.Seen() == old(m.Seen()) && Agrees(m.mem, Live(m.space), After(l, Write(n, k, v), 0))
  {
    hide BinsHold, HeapOk, BinnedOk, Live, SegsOk, Headed, PayloadKept, PayloadsMapped, Blocks, Intact, SetByte, Bits;
    AllMapped(m.mem, m.space, m.ms);
    if n in l && k < l[n].size {
      ghost var m0, l0, p := m.mem, Live(m.space), l[n].at - 16;
      BlockCovered(l0, l, n);
      PayloadMapped(m.mem, m.space, m.ms, p);
      ByteInside(k / 8, k % 8, k + 1, l0[p] / 16);
      var w := WordAt(l[n].at, k / 8);
      m.mem := Store(m.mem, w, Data(SetByte(Bits(m.mem[w]), k % 8, v)));
      ClientWrote(m0, m.mem, m.space, m.ms, p, m.binned, m.held, m.smallmap, m.treemap);
      Wrote(m0, m.mem, l0, l, n, k, v);
    }
  }

  method RunTrim(m: Mspace, l: Ledger, pad: nat) returns (trimmed: bool)
    requires m.Valid() && Agrees(m.mem, Live(m.space), l)
    modifies m
    ensures m.Valid() && (old(m.Fixed()) ==> m.SegmentsKept()) && m.asked >= old(m.asked)
    ensures Agrees(m.mem, Live(m.space), l)
    ensures StepDoes(m.answers, m.ms, old(m.Seen()), l, Trim(pad), if trimmed then 1 else 0, m.Seen())
  {
    hide BinsHold, HeapOk, BinnedOk, Live, SegsOk, Headed, PayloadKept, PayloadsMapped, Blocks, Intact, TrimDoes;
    hide Footprint;
    ghost var m0, l0 := m.mem, Live(m.space);
    AllMapped(m.mem, m.space, m.ms);
    trimmed := m.SysTrim(pad);
    Untouched(m0, m.mem, l0, l);
  }

  method Step(m: Mspace, l: Ledger, c: Command) returns (r: int)
    requires m.Valid() && Legal(c) && Agrees(m.mem, Live(m.space), l) && AllAligned(l)
    modifies m
    ensures m.Valid() && (m.asked == old(m.asked) && old(m.Fixed()) ==> m.SegmentsKept()) && m.asked >= old(m.asked)
    ensures StepDoes(m.answers, m.ms, old(m.Seen()), l, c, r, m.Seen())
    ensures Agrees(m.mem, Live(m.space), After(l, c, r)) && AllAligned(After(l, c, r))
  {
    hide BinsHold, HeapOk, BinnedOk, Live, SegsOk, Headed, Agrees, AlignedTo, Requests.ReallocDoes, Growth.MallocDoes;
    hide Requests.MemalignDoes, FreeDoes, TrimDoes, Footprint;
    r := 0;
    match c
    case Malloc(n, bytes) => if n !in l { r := RunMalloc(m, l, n, bytes); }
    case Memalign(n, alignment, bytes) => if n !in l { r := RunMemalign(m, l, n, alignment, bytes); }
    case Realloc(n, bytes) => r := RunRealloc(m, l, n, bytes);
    case Free(n) => RunFree(m, l, n);
    case Write(n, k, v) => RunWrite(m, l, n, k, v);
    case Trim(pad) =>
      var trimmed := RunTrim(m, l, pad);
      r := if trimmed then 1 else 0;
  }

  /** After any program on a new mspace, and whatever the system says when it is asked, every block holds what was last
      written to it, blocks are aligned as asked for and do not overlap, and every command has done what it should.
      When the client holds no block and the mspace has no region but its first one, it is as it was at first; and it
      has no other when the system was never asked. */
  method Execute(base: int, capacity: nat, words: Mem, answers: seq<Answer>, program: seq<Command>)
    returns (m: Mspace, returned: seq<int>, ghost views: seq<View>)
    requires GoodRegion(base, capacity) && Mapped(words, base, base + capacity)
    requires forall c :: c in program ==> Legal(c)
    ensures fresh(m) && m.Valid() && |returned| == |program| && |views| == |program| + 1
    ensures Agrees(m.mem, Live(m.space), Replay(program, returned))
    ensures Separate(Replay(program, returned)) && AllAligned(Replay(program, returned))
    ensures views[0] == View(Initial(base, capacity), 0, DEFAULT_TRIM_THRESHOLD, MAX_RELEASE_CHECK_RATE)
    ensures views[|program|] == m.Seen()
    ensures forall i :: 0 <= i < |program| ==>
      StepDoes(answers, base + 16, views[i], Replay(program[..i], returned[..i]), program[i], returned[i], views[i + 1])
    ensures forall i :: 0 <= i < |program| && Asks(program[i]) ==>
      (returned[i] == 0 <==> Refused(answers, views[i], Replay(program[..i], returned[..i]), program[i]))
    ensures m.asked == 0 ==> m.space.regs == [Region(base, capacity, true)]
    ensures Replay(program, returned) == map[] && m.space.regs == [Region(base, capacity, true)] ==>
      && m.space == Initial(base, capacity) && IsZero(m.smallmap) && IsZero(m.treemap)
      && m.top == base + STATE_SIZE && m.topsize == capacity - STATE_SIZE - TOP_FOOT_SIZE && m.dv == 0 && m.dvsize == 0
  {
    hide BinsHold, HeapOk, BinnedOk, Live, SegsOk, Headed, Agrees, Mapped, Separate, AllAligned, StepDoes, Refused;
    m := new Mspace(base, capacity, words, answers);
    returned := [];
    views := [m.Seen()];
    var l: Ledger := map[];
    NothingYet(m.mem);
    for i := 0 to |program|
      invariant m.Valid() && m.ms == base + 16 && m.answers == answers
      invariant m.asked == 0 ==> m.space.regs == [Region(base, capacity, true)]
      invariant |returned| == i && Agrees(m.mem, Live(m.space), l) && AllAligned(l)
      invariant l == Replay(program[..i], returned) && |views| == i + 1 && views[i] == m.Seen()
      invariant views[0] == View(Initial(base, capacity), 0, DEFAULT_TRIM_THRESHOLD, MAX_RELEASE_CHECK_RATE)
      invariant Followed(answers, base + 16, program, returned, views, i)
    {
      assert program[..i + 1][..i] == program[..i];
      var r := Step(m, l, program[i]);
      l := After(l, program[i], r);
      assert (returned + [r])[..i] == returned;
      FollowedOn(answers, base + 16, program, returned, views, i, r, m.Seen());
      views := views + [m.Seen()];
      returned := returned + [r];
    }
    assert program[..|program|] == program;
    if l == map[] && m.space.regs == [Region(base, capacity, true)] {
      NoBlocks(m.mem, Live(m.space));
      m.AllFreed(base, capacity);
    }
    BlocksOf(m, l);
    ZerosRefused(answers, base + 16, program, returned, views);
  }

  lemma ZerosRefused(a: seq<Answer>, ms: int, program: seq<Command>, returned: seq<int>, views: seq<View>)
    requires Followed(a, ms, program, returned, views, |program|)
    ensures forall i :: 0 <= i < |program| && Asks(program[i]) ==>
      (returned[i] == 0 <==> Refused(a, views[i], Replay(program[..i], returned[..i]), program[i]))
  {
    hide StepDoes, Refused, Replay;
    forall i | 0 <= i < |program| && Asks(program[i])
      ensures returned[i] == 0 <==> Refused(a, views[i], Replay(program[..i], returned[..i]), program[i])
    {
      ZeroIffRefused(a, ms, views[i], Replay(program[..i], returned[..i]), program[i], returned[i], views[i + 1]);
    }
  }

  /** The first `n` commands have done what they should. */
  ghost predicate Followed(a: seq<Answer>, ms: int, program: seq<Command>, returned: seq<int>, views: seq<View>,
      n: nat)
  {
    && n <= |program| && n <= |returned| && n < |views|
    && forall i :: 0 <= i < n ==>
      StepDoes(a, ms, views[i], Replay(program[..i], returned[..i]), program[i], returned[i], views[i + 1])
  }

  lemma FollowedOn(a: seq<Answer>, ms: int, program: seq<Command>, returned: seq<int>, views: seq<View>, n: nat, r: int,
      v: View)
    requires Followed(a, ms, program, returned, views, n) && |returned| == n < |program| && |views| == n + 1
    requires StepDoes(a, ms, views[n], Replay(program[..n], returned), program[n], r, v)
    ensures Followed(a, ms, program, returned + [r], views + [v], n + 1)
  {
    hide StepDoes, Replay;
    var returned', views' := returned + [r], views + [v];
    forall i | 0 <= i <= n
      ensures StepDoes(a, ms, views'[i], Replay(program[..i], returned'[..i]), program[i], returned'[i], views'[i + 1])
    {
      assert returned'[..i] == returned[..i];
      if i == n { assert returned[..n] == returned; }
    }
  }

  lemma NothingYet(m: Mem)
    ensures Agrees(m, map[], map[]) && AllAligned(map[])
  {}

  lemma NoBlocks(m: Mem, live: Sizing)
    requires Agrees(m, live, map[])
    ensures live == map[]
  {
    forall p: int ensures p !in live { NoneNamed(p); }
  }

  lemma NoneNamed(p: int)
    ensures !Named(map[], p)
  {}

  lemma BlocksOf(m: Mspace, l: Ledger)
    requires m.Valid() && Agrees(m.mem, Live(m.space), l)
    ensures Separate(l)
  {
    hide Blocks, HeapOk;
    BlocksSeparate(m.mem, m.space, m.ms, l);
  }

  /** The command neither frees block `n`, nor writes its byte `k`, nor cuts it off. */
  predicate Spares(c: Command, r: int, n: nat, k: nat) {
    match c
    case Free(x) => x != n
    case Write(x, j, _) => x != n || j != k
    case Realloc(x, bytes) => x == n && r != 0 ==> k < bytes
    case _ => true
  }

  lemma {:induction false} LastWritten(program: seq<Command>, returned: seq<int>, i: nat, n: nat, k: nat, v: int)
    requires i < |program| == |returned| && program[i] == Write(n, k, v)
    requires var l := Replay(program[..i], returned[..i]); n in l && k < l[n].size
    requires forall j :: i < j < |program| ==> Spares(program[j], returned[j], n, k)
    ensures var l := Replay(program, returned); n in l && k in l[n].bytes && l[n].bytes[k] == v
  {
    var e := |program| - 1;
    if i < e {
      assert program[..e][..i] == program[..i] && returned[..e][..i] == returned[..i];
      LastWritten(program[..e], returned[..e], i, n, k, v);
      assert Spares(program[e], returned[e], n, k);
    }
  }

  /** A byte written into a block is found there, wherever the block has moved, until the block is freed, the byte is
      cut off, or it is written again. */
  lemma ByteLasts(m: Mem, live: Sizing, program: seq<Command>, returned: seq<int>, i: nat, n: nat, k: nat, v: int)
    requires i < |program| == |returned| && program[i] == Write(n, k, v) && Agrees(m, live, Replay(program, returned))
    requires var l := Replay(program[..i], returned[..i]); n in l && k < l[n].size
    requires forall j :: i < j < |program| ==> Spares(program[j], returned[j], n, k)
    ensures n in Replay(program, returned) && ByteAt(m, Replay(program, returned)[n].at, k) == v
  {
    hide Replay, Spares, Blocks;
    LastWritten(program, returned, i, n, k, v);
  }
}
