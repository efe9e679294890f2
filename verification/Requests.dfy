/** `mspace_realloc` and `mspace_memalign`, whose allocations may ask the system for more memory. */
module Requests {
  import opened Words
  import opened Bins
  import opened Tries
  import opened HeapMemory
  import opened HeapEdits
  import opened Freeing
  import opened Clients
  import opened Bitwise
  import opened Bytes
  import opened Regions
  import opened Records
  import opened Effects
  import opened Mspaces
  import opened Growth

  /** `mspace_realloc`: in place when that is possible, otherwise with a new chunk, before the old one is freed. */
  ghost predicate ReallocDoes(a: seq<Answer>, v: View, ms: int, at: int, bytes: nat, r: int, v': View) {
    var p, nb := at - 16, NeedFor(bytes);
    if at == 0 then MallocDoes(a, v, nb, r, v')
    else if bytes >= MAX_REQUEST then r == 0 && v' == v
    else if CanReach(v.space, p, nb) then r == at && InPlace(v.space, p, nb, v'.space) && v' == v.(space := v'.space)
    else MoveDoes(a, v, ms, p, nb, r, v')
  }

  ghost predicate MoveDoes(a: seq<Answer>, v: View, ms: int, p: int, nb: nat, r: int, v': View) {
    exists v1 :: MallocDoes(a, v, nb, r, v1) && if r == 0 then v' == v1 else FreeDoes(a, v1, ms, p, v')
  }

  method Realloc(m: Mspace, at: int, bytes: nat) returns (r: int)
    requires m.Valid() && (at != 0 ==> at - 16 in Live(m.space)) && bytes < TWO64
    modifies m
    ensures m.Valid() && m.asked >= old(m.asked)
    ensures m.asked == old(m.asked) && old(m.Fixed()) ==> m.SegmentsKept()
    ensures ReallocDoes(m.answers, old(m.Seen()), m.ms, at, bytes, r, m.Seen())
    ensures r == 0 <==>
      || (at != 0 && bytes >= MAX_REQUEST)
      || ((at != 0 ==> !CanReach(old(m.space), at - 16, NeedFor(bytes)))
          && Fails(m.answers, old(m.Seen()), NeedFor(bytes)))
    ensures r == 0 ==> m.StateKept()
    ensures at == 0 && r != 0 ==>
      m.Gave(NeedFor(bytes), r - 16) && PayloadKept(old(m.mem), m.mem, old(Live(m.space)))
    ensures at != 0 && r != 0 ==>
      m.Moved(at - 16, r - 16, NeedFor(bytes)) && PayloadKept(old(m.mem), m.mem, old(Live(m.space)) - {at - 16})
    ensures at != 0 && r != 0 ==>
      && old(Live(m.space))[at - 16] >= CHUNK_OVERHEAD
      && Copied(old(m.mem), m.mem, at, r, KeptBy(old(Live(m.space))[at - 16], bytes))
    ensures at != 0 && bytes < MAX_REQUEST && CanReach(old(m.space), at - 16, NeedFor(bytes)) ==> r == at
  {
    hide BinsHold, HeapOk, BinnedOk, Live, PayloadKept, Copied, Headed, SegsOk, SegsAbove, BinsAbove;
    hide MallocDoes, MoveDoes, InPlace, CanReach, Fails;
    r := 0;
    if at == 0 {
      r := Malloc(m, bytes);
    } else if bytes < MAX_REQUEST {
      var nb := Request2Size(bytes);
      var oldp := at - 16;
      ghost var m0, l := m.mem, Live(m.space);
      PayloadMapped(m.mem, m.space, m.ms, oldp);
      ghost var n := KeptBy(l[oldp], bytes);
      var newp := m.TryRealloc(oldp, nb);
      if newp != 0 {
        PayloadMapped(m.mem, m.space, m.ms, oldp);
        KeptBytes(m0, m.mem, oldp, if SizeOf(m.space, oldp) < l[oldp] then SizeOf(m.space, oldp) else l[oldp], n);
        r := newp + 16;
      } else {
        r := MoveChunk(m, at, oldp, bytes);
      }
    }
  }

  /** The last resort of `mspace_realloc`: allocate, copy, free. */
  method MoveChunk(m: Mspace, at: int, oldp: int, bytes: nat) returns (r: int)
    requires m.Valid() && at == oldp + 16 && oldp in Live(m.space) && bytes < MAX_REQUEST
    modifies m
    ensures m.Valid() && m.asked >= old(m.asked)
    ensures m.asked == old(m.asked) && old(m.Fixed()) ==> m.SegmentsKept()
    ensures MoveDoes(m.answers, old(m.Seen()), m.ms, oldp, NeedFor(bytes), r, m.Seen())
    ensures r == 0 <==> Fails(m.answers, old(m.Seen()), NeedFor(bytes))
    ensures r == 0 ==> m.StateKept()
    ensures r != 0 ==>
      m.Moved(oldp, r - 16, NeedFor(bytes)) && PayloadKept(old(m.mem), m.mem, old(Live(m.space)) - {oldp})
    ensures r != 0 ==>
      && old(Live(m.space))[oldp] >= CHUNK_OVERHEAD
      && Copied(old(m.mem), m.mem, at, r, KeptBy(old(Live(m.space))[oldp], bytes))
  {
    hide BinsHold, HeapOk, BinnedOk, Live, PayloadKept, Copied, Headed, SegsOk, SegsAbove, BinsAbove;
    hide MallocDoes, FreeDoes, Fails;
    ghost var m0, l := m.mem, Live(m.space);
    PayloadMapped(m.mem, m.space, m.ms, oldp);
    r := Malloc(m, bytes);
    ghost var v1 := m.Seen();
    if r != 0 {
      ghost var m1, l1, q := m.mem, Live(m.space), r - 16;
      ghost var n := KeptBy(l[oldp], bytes);
      KeptOne(m0, m1, l, oldp);
      KeptBytes(m0, m1, oldp, l[oldp], n);
      m.CopyAndFree(at, r, bytes);
      CopiedThen(m0, m1, m.mem, at, at, r, n);
      KeptPart(m0, m1, l, l - {oldp});
      KeptPart(m1, m.mem, l1 - {oldp} - {q}, l - {oldp});
      KeptTrans(m0, m1, m.mem, l - {oldp});
      GaveThenTook(l, oldp, q, l1[q]);
    }
  }

  /** How much `internal_memalign` allocates, once the alignment is a power of two. */
  function PaddedFor(alignment: nat, bytes: nat): nat {
    Request2Size(bytes) + alignment + MIN_CHUNK_SIZE - CHUNK_OVERHEAD
  }

  /** `internal_memalign`, once the alignment is a power of two: an aligned chunk is cut out of a larger one. */
  ghost predicate AlignDoes(a: seq<Answer>, v: View, al: nat, bytes: nat, at: int, v': View) {
    if bytes >= MAX_REQUEST - al then at == 0 && v' == v
    else exists v1, at1 ::
      && MallocDoes(a, v, NeedFor(PaddedFor(al, bytes)), at1, v1)
      && if at1 == 0 then at == 0 && v' == v1 else CutDoes(v1, at1 - 16, al, Request2Size(bytes), at, v')
  }

  ghost predicate CutDoes(v: View, p0: int, al: nat, nb: nat, at: int, v': View) {
    var s, s', p := v.space, v'.space, at - 16;
    && at != 0 && al > 0 && AlignedIn(p0, al, p) && p - p0 <= SizeOf(s, p0)
    && Live(s') == (Live(s) - {p0})[p := FittedTo(SizeOf(s, p0) - (p - p0), nb)]
    && s'.dv == DvFitted(s.dv, p, SizeOf(s, p0) - (p - p0), nb) && SameRegions(s, s') && v' == v.(space := s')
  }

  ghost predicate MemalignDoes(a: seq<Answer>, v: View, alignment: nat, bytes: nat, at: int, v': View) {
    if alignment <= MALLOC_ALIGNMENT then MallocDoes(a, v, NeedFor(bytes), at, v')
    else exists al :: RoundsTo(alignment, al) && AlignDoes(a, v, al, bytes, at, v')
  }

  lemma AlignIs(a: seq<Answer>, v: View, al: nat, bytes: nat, v1: View, at1: int, at: int, v': View)
    requires bytes < MAX_REQUEST - al && MallocDoes(a, v, NeedFor(PaddedFor(al, bytes)), at1, v1)
    requires if at1 == 0 then at == 0 && v' == v1 else CutDoes(v1, at1 - 16, al, Request2Size(bytes), at, v')
    ensures AlignDoes(a, v, al, bytes, at, v')
  {
    hide MallocDoes, CutDoes;
  }

  lemma LivePositive(m: Mspace, p: int)
    requires m.Valid() && p in Live(m.space)
    ensures p > 0
  {
    hide BinsHold, HeapOk, BinnedOk, Live, Headed, BinsAbove, SegsAbove, SegsOk;
    LiveSize(m.mem, m.space, m.ms, p);
  }

  /** What is cut out is new to the clients, aligned, and as large as asked for. */
  lemma CutOut(l: Sizing, v: View, p0: int, al: nat, nb: nat, p: int, v': View)
    requires CutDoes(v, p0, al, nb, p + 16, v') && p0 !in l && p0 in Live(v.space)
    requires Live(v.space) == l[p0 := Live(v.space)[p0]]
    requires (p == p0 || p !in Live(v.space)) && nb <= SizeOf(v.space, p0) - (p - p0)
    ensures Live(v.space) - {p0} == l
    ensures al > 0 && (p + 16) % al == 0 && p !in l && p in Live(v'.space)
    ensures nb <= Live(v'.space)[p] <= nb + MIN_CHUNK_SIZE && Live(v'.space) == l[p := Live(v'.space)[p]]
  {
    hide Live, SizeOf;
    GaveThenMoved(l, Live(v.space), Live(v'.space), p0, p);
  }

  lemma NoAlign(a: seq<Answer>, v: View, al: nat, bytes: nat)
    requires bytes >= MAX_REQUEST - al
    ensures AlignDoes(a, v, al, bytes, 0, v)
  {
    hide MallocDoes, CutDoes;
  }

  /** `internal_memalign`: asks for more than needed, so that an aligned chunk can be cut out. */
  method InternalMemalign(m: Mspace, alignment: nat, bytes: nat) returns (at: int, ghost a: nat)
    requires m.Valid() && alignment <= 0x8000_0000_0000_0000 && bytes < TWO64
    modifies m
    ensures m.Valid() && PayloadKept(old(m.mem), m.mem, old(Live(m.space))) && RoundsTo(alignment, a)
    ensures AlignDoes(m.answers, old(m.Seen()), a, bytes, at, m.Seen())
    ensures m.asked >= old(m.asked) && (m.asked == old(m.asked) ==> m.SegmentsKept())
    ensures at == 0 <==> AlignFails(m.answers, old(m.Seen()), a, bytes)
    ensures at == 0 ==> m.StateKept()
    ensures at != 0 ==> at % a == 0 && at - 16 !in old(Live(m.space)) && at - 16 in Live(m.space)
    ensures at != 0 ==> Request2Size(bytes) <= Live(m.space)[at - 16] <= Request2Size(bytes) + MIN_CHUNK_SIZE
    ensures at != 0 ==> Live(m.space) == old(Live(m.space))[at - 16 := Live(m.space)[at - 16]]
  {
    hide BinsHold, HeapOk, BinnedOk, Live, PayloadKept, Headed, BinsAbove, SegsAbove, RoundsTo, And64;
    hide SegsOk, MallocDoes, Fails, AlignDoes, AlignedIn, FittedTo;
    var al := m.RoundAlignment(alignment);
    a := al;
    at := 0;
    NothingWritten(m.mem, m.space);
    if bytes >= MAX_REQUEST - al { NoAlign(m.answers, m.Seen(), al, bytes); }
    if bytes < MAX_REQUEST - al {
      var nb := Request2Size(bytes);
      var req := nb + al + MIN_CHUNK_SIZE - CHUNK_OVERHEAD;
      at := Malloc(m, req);
      ghost var v1, at1 := m.Seen(), at;
      if at != 0 {
        ghost var m1, l := m.mem, old(Live(m.space));
        LiveSize(m.mem, m.space, m.ms, at - 16);
        var p := m.FitAligned(at - 16, al, nb);
        LivePositive(m, p);
        assert CutDoes(v1, at - 16, al, nb, p + 16, m.Seen());
        CutOut(l, v1, at - 16, al, nb, p, m.Seen());
        KeptTrans(old(m.mem), m1, m.mem, l);
        at := p + 16;
      }
      AlignIs(m.answers, old(m.Seen()), al, bytes, v1, at1, at, m.Seen());
    }
  }

  /** What keeps an aligned request from its memory: for an alignment above that of all chunks, with the power of two
      that it is rounded to. */
  ghost predicate MemalignFails(a: seq<Answer>, v: View, alignment: nat, bytes: nat) {
    if alignment <= MALLOC_ALIGNMENT then Fails(a, v, NeedFor(bytes))
    else exists al :: RoundsTo(alignment, al) && AlignFails(a, v, al, bytes)
  }

  ghost predicate AlignFails(a: seq<Answer>, v: View, al: nat, bytes: nat) {
    bytes >= MAX_REQUEST - al || Fails(a, v, NeedFor(PaddedFor(al, bytes)))
  }

  lemma MemalignFailsIs(a: seq<Answer>, v: View, alignment: nat, bytes: nat, al: nat)
    requires alignment > MALLOC_ALIGNMENT && RoundsTo(alignment, al)
    ensures MemalignFails(a, v, alignment, bytes) <==> AlignFails(a, v, al, bytes)
  {
    hide RoundsTo, AlignFails;
    forall b | RoundsTo(alignment, b) ensures b == al { RoundsToOne(alignment, al, b); }
  }

  /** `mspace_memalign` */
  method Memalign(m: Mspace, alignment: nat, bytes: nat) returns (at: int)
    requires m.Valid() && alignment <= 0x8000_0000_0000_0000 && bytes < TWO64
    modifies m
    ensures m.Valid() && PayloadKept(old(m.mem), m.mem, old(Live(m.space)))
    ensures MemalignDoes(m.answers, old(m.Seen()), alignment, bytes, at, m.Seen())
    ensures m.asked >= old(m.asked) && (m.asked == old(m.asked) ==> m.SegmentsKept())
    ensures at == 0 <==> MemalignFails(m.answers, old(m.Seen()), alignment, bytes)
    ensures at == 0 ==> m.StateKept()
    ensures at != 0 ==> AlignedTo(at, alignment) && at - 16 !in old(Live(m.space)) && at - 16 in Live(m.space)
    ensures at != 0 ==>
      bytes + CHUNK_OVERHEAD <= Request2Size(bytes) <= Live(m.space)[at - 16] <= Request2Size(bytes) + MIN_CHUNK_SIZE
    ensures at != 0 ==> Live(m.space) == old(Live(m.space))[at - 16 := Live(m.space)[at - 16]]
  {
    hide BinsHold, HeapOk, BinnedOk, Live, PayloadKept, AlignedTo, Headed, SegsOk, SegsAbove, BinsAbove;
    hide MallocDoes, AlignDoes, AlignFails, Fails, RoundsTo;
    if alignment <= MALLOC_ALIGNMENT {
      at := Malloc(m, bytes);
      if at != 0 {
        LiveSize(m.mem, m.space, m.ms, at - 16);
        SixteenAligned(at, alignment);
      }
    } else {
      ghost var a: nat;
      at, a := InternalMemalign(m, alignment, bytes);
      MemalignFailsIs(m.answers, old(m.Seen()), alignment, bytes, a);
      if at != 0 {
        LiveSize(m.mem, m.space, m.ms, at - 16);
        IsAligned(at, alignment, a);
      }
    }
  }
}
