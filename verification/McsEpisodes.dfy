/** What happens when PEs call the lock again after `oshmpi_unlock`: exactly when mutual exclusion survives. */
module McsEpisodes {
  import opened McsLock
  import opened Picks

  /** Calling `oshmpi_lock` or `oshmpi_trylock` again after `oshmpi_unlock`. */
  predicate Again(s: State, s': State, p: int) { IsPe(s, p) && s.pc[p].Done? && s' == At(s, p, Idle) }

  /** A step of the code, with `oshmpi_lock` only or with `oshmpi_trylock` too, or a new call by a PE of `r`. */
  predicate Allowed(plain: bool, r: set<int>, s: State, s': State, p: int) {
    PlainStep(s, s', p) || (!plain && TryStep(s, s', p)) || (p in r && Again(s, s', p))
  }

  /** A run of `n` PEs of which only those in `r` may acquire the lock more than once. */
  ghost predicate LongRun(plain: bool, n: nat, r: set<int>, run: seq<State>, who: seq<int>) {
    && |run| == |who| + 1 && run[0] == Start(n)
    && forall i :: 0 <= i < |who| ==> Allowed(plain, r, run[i], run[i + 1], who[i])
  }

  /** Two PEs are never inside together. */
  ghost predicate Exclusive(run: seq<State>) {
    forall i, p, q :: 0 <= i < |run| && Inside(run[i], p) && Inside(run[i], q) ==> p == q
  }

  // ----- one PE that acquires again and again -----

  /** Nobody knows of `p` as a successor. */
  ghost predicate Unknown(s: State, p: int) {
    && (forall v :: IsPe(s, v) ==> s.next[v] != p && s.pc[v] != Leaving(p))
    && (forall v :: (v, p) !in s.sent)
  }

  /** `v` has, or has had, a successor. */
  predicate Told(s: State, v: int, q: int) {
    IsPe(s, v) && IsPe(s, q) && (s.next[v] == q || s.pc[v] == Leaving(q) || (v, q) in s.sent || s.pc[q] == Swapped(v))
  }

  /** What one PE's place says, when only `x` acquires more than once. */
  ghost predicate PlaceFine(s: State, x: int, p: int)
    requires IsPe(s, p)
  {
    && (s.pc[p].Swapped? || s.pc[p].Waiting? ==> IsPe(s, s.pc[p].prev) && (p != x ==> s.pc[p].prev != p))
    && (p != x && (s.pc[p].Idle? || s.pc[p].Swapped?) ==> Unknown(s, p))
    && (p == x && s.pc[p].Swapped? ==>
          var v := s.pc[p].prev; s.next[v] != x && s.pc[v] != Leaving(x) && (v, x) !in s.sent)
    && (s.next[p] == x && p == x ==> s.pc[x] == Waiting(x))
    && (p == x ==> s.pc[x] != Leaving(x))
    && (p != x && s.pc[p].Idle? ==> s.tail != p)
    && (s.next[p] == NIL || IsPe(s, s.next[p]))
    && !s.pc[p].Tried? && !s.pc[p].Winning?
  }

  ghost predicate OneRepeats(s: State, x: int) {
    && |s.next| == |s.pc| && |s.lock| == |s.pc| && (s.tail == NIL || IsPe(s, s.tail))
    && (s.tail == NIL ==> forall p :: IsPe(s, p) ==> s.pc[p] == Idle)
    && (x, x) !in s.sent
    && (forall p :: IsPe(s, p) ==> PlaceFine(s, x, p))
    && (forall v, q :: Told(s, v, q) && v != x ==> s.tail != v && !s.pc[v].Idle?)
    && (forall p, q :: Token(s, p) && Token(s, q) ==> p == q)
  }

  lemma RepeatsStart(n: nat, x: int)
    ensures OneRepeats(Start(n), x)
  {}

  predicate Moves(s: State, s': State, p: int, x: int) { PlainStep(s, s', p) || (p == x && Again(s, s', p)) }

  lemma RepeatsShape(s: State, s': State, x: int, p: int)
    requires OneRepeats(s, x) && Moves(s, s', p, x)
    ensures |s'.pc| == |s.pc| == |s'.next| == |s'.lock| && (s'.tail == NIL || IsPe(s', s'.tail)) && (x, x) !in s'.sent
    ensures s'.tail == NIL ==> forall q :: IsPe(s', q) ==> s'.pc[q] == Idle
  {
    assert IsPe(s, p) && PlaceFine(s, x, p);
  }

  lemma PlaceAfterSwap(s: State, s': State, x: int, p: int, q: int)
    requires OneRepeats(s, x) && SwapTail(s, s', p) && IsPe(s', q)
    ensures PlaceFine(s', x, q)
  {
    assert IsPe(s, q) && PlaceFine(s, x, q) && PlaceFine(s, x, p);
    if s.tail != NIL {
      assert s.tail != x ==> !Told(s, s.tail, p);
      assert PlaceFine(s, x, s.tail);
    }
  }

  lemma PlaceAfterTell(s: State, s': State, x: int, p: int, q: int)
    requires OneRepeats(s, x) && TellPrevious(s, s', p) && IsPe(s', q)
    ensures PlaceFine(s', x, q)
  {
    assert IsPe(s, q) && PlaceFine(s, x, q) && PlaceFine(s, x, p);
  }

  lemma PlaceAfterEntry(s: State, s': State, x: int, p: int, q: int)
    requires OneRepeats(s, x) && (Probe(s, s', p) || SetLock(s, s', p)) && IsPe(s', q)
    ensures PlaceFine(s', x, q)
  {
    assert IsPe(s, q) && PlaceFine(s, x, q) && PlaceFine(s, x, p);
  }

  lemma PlaceAfterUnlock(s: State, s': State, x: int, p: int, q: int)
    requires OneRepeats(s, x) && UnlockStep(s, s', p) && IsPe(s', q)
    ensures PlaceFine(s', x, q)
  {
    assert IsPe(s, q) && PlaceFine(s, x, q) && PlaceFine(s, x, p);
  }

  lemma PlaceAfterAgain(s: State, s': State, x: int, q: int)
    requires OneRepeats(s, x) && Again(s, s', x) && IsPe(s', q)
    ensures PlaceFine(s', x, q)
  {
    assert IsPe(s, q) && PlaceFine(s, x, q) && PlaceFine(s, x, x);
  }

  lemma PlaceKept(s: State, s': State, x: int, p: int, q: int)
    requires OneRepeats(s, x) && Moves(s, s', p, x) && IsPe(s', q)
    ensures PlaceFine(s', x, q)
  {
    hide OneRepeats, SwapTail, TellPrevious, Probe, SetLock, UnlockStep, Again, PlaceFine;
    if SwapTail(s, s', p) {
      PlaceAfterSwap(s, s', x, p, q);
    } else if TellPrevious(s, s', p) {
      PlaceAfterTell(s, s', x, p, q);
    } else if Probe(s, s', p) || SetLock(s, s', p) {
      PlaceAfterEntry(s, s', x, p, q);
    } else if UnlockStep(s, s', p) {
      PlaceAfterUnlock(s, s', x, p, q);
    } else {
      PlaceAfterAgain(s, s', x, q);
    }
  }

  /** Who has a successor, other than the one PE, never becomes the tail again. */
  lemma ToldKept(s: State, s': State, x: int, p: int, v: int, q: int)
    requires OneRepeats(s, x) && Moves(s, s', p, x) && Told(s', v, q) && v != x
    ensures s'.tail != v && !s'.pc[v].Idle?
  {
    assert IsPe(s, p) && IsPe(s, v) && PlaceFine(s, x, p) && PlaceFine(s, x, v);
    if Told(s, v, q) {
      assert s.tail != v && !s.pc[v].Idle?;
    } else {
      assert SwapTail(s, s', p) && q == p && s.tail == v;
    }
  }

  /** A PE that starts to wait finds no message that is already there. */
  lemma NoStaleMessage(s: State, s': State, x: int, p: int)
    requires OneRepeats(s, x) && TellPrevious(s, s', p)
    ensures !Token(s', p)
  {
    assert PlaceFine(s, x, p);
  }

  /** The token moves with a message or is the first one. */
  lemma TokenMoves(s: State, s': State, x: int, p: int, a: int)
    requires OneRepeats(s, x) && Moves(s, s', p, x) && Token(s', a)
    ensures Token(s, a) || (a == p && s.tail == NIL) || (Notify(s, s', p) && a == s.pc[p].next && a != p)
  {
    assert IsPe(s, p) && PlaceFine(s, x, p);
    if TellPrevious(s, s', p) { NoStaleMessage(s, s', x, p); }
  }

  lemma RepeatsKept(s: State, s': State, x: int, p: int)
    requires OneRepeats(s, x) && Moves(s, s', p, x)
    ensures OneRepeats(s', x)
  {
    RepeatsShape(s, s', x, p);
    forall q | IsPe(s', q) ensures PlaceFine(s', x, q) { PlaceKept(s, s', x, p, q); }
    forall v, q | Told(s', v, q) && v != x ensures s'.tail != v && !s'.pc[v].Idle? { ToldKept(s, s', x, p, v, q); }
    forall a, b | Token(s', a) && Token(s', b) ensures a == b {
      TokenMoves(s, s', x, p, a);
      TokenMoves(s, s', x, p, b);
      TokenLeaves(s, s', x, p, a, b);
    }
  }

  /** There is no second token beside the first one or the one that has just been sent. */
  lemma TokenLeaves(s: State, s': State, x: int, p: int, a: int, b: int)
    requires OneRepeats(s, x) && Moves(s, s', p, x) && Token(s', a) && Token(s', b)
    requires Token(s, a) || (a == p && s.tail == NIL) || (Notify(s, s', p) && a == s.pc[p].next && a != p)
    requires Token(s, b) || (b == p && s.tail == NIL) || (Notify(s, s', p) && b == s.pc[p].next && b != p)
    ensures a == b
  {
    assert IsPe(s, p);
    if Notify(s, s', p) { assert Token(s, p) && !Token(s', p); }
  }

  lemma {:induction false} RepeatsHold(n: nat, r: set<int>, x: int, run: seq<State>, who: seq<int>, i: nat)
    requires LongRun(true, n, r, run, who) && (forall p :: p in r ==> p == x) && i < |run|
    ensures OneRepeats(run[i], x)
  {
    if i == 0 {
      RepeatsStart(n, x);
    } else {
      RepeatsHold(n, r, x, run, who, i - 1);
      assert Allowed(true, r, run[i - 1], run[i], who[i - 1]);
      RepeatsKept(run[i - 1], run[i], x, who[i - 1]);
    }
  }

  /** With `oshmpi_lock` only, one PE may call it again and again. */
  lemma OneMayRepeat(n: nat, r: set<int>, x: int, run: seq<State>, who: seq<int>)
    requires LongRun(true, n, r, run, who) && (forall p :: p in r ==> p == x)
    ensures Exclusive(run)
  {
    hide OneRepeats, LongRun;
    forall i, p, q | 0 <= i < |run| && Inside(run[i], p) && Inside(run[i], q) ensures p == q {
      RepeatsHold(n, r, x, run, who, i);
      InsideHoldsToken(run[i], x, p, q);
    }
  }

  lemma InsideHoldsToken(s: State, x: int, p: int, q: int)
    requires OneRepeats(s, x) && Inside(s, p) && Inside(s, q)
    ensures p == q
  {
    assert Token(s, p) && Token(s, q);
  }

  // ----- two PEs, one of which acquires again and again, and both of which may try -----

  /** Nobody knows of `y` as a successor, until it has told `x`. */
  predicate Untold(s: State, x: int, y: int)
    requires IsPe(s, x) && IsPe(s, y)
  {
    && (s.pc[y].Idle? || s.pc[y].Tried? || s.pc[y].Swapped? ==>
          s.next[x] != y && s.pc[x] != Leaving(y) && (x, y) !in s.sent)
    && (s.pc[y].Idle? || s.pc[y].Tried? ==> s.tail != y && s.pc[x] != Swapped(y) && s.pc[x] != Waiting(y))
    && s.pc[y] != Swapped(y) && s.pc[y] != Waiting(y)
  }

  /** `x` can be told about itself only when it is stuck behind itself, and by `y` only once. */
  predicate Stuck(s: State, x: int, y: int)
    requires IsPe(s, x) && IsPe(s, y)
  {
    && (s.next[x] == x ==> s.pc[x] == Waiting(x)) && s.pc[x] != Leaving(x) && (x, x) !in s.sent
    && ((y, x) in s.sent ==> s.pc[y] == Sent(x) || s.pc[y] == Done(x))
  }

  ghost predicate TwoPes(s: State, x: int, y: int) {
    && |s.pc| == |s.next| == |s.lock| == 2 && IsPe(s, x) && IsPe(s, y) && x != y
    && (s.tail == NIL || IsPe(s, s.tail)) && s.lock[x] != 0 && s.lock[y] != 0
    && (s.tail == NIL ==> s.pc[x] == Idle && s.pc[y] == Idle)
    && Untold(s, x, y) && Stuck(s, x, y) && !(Token(s, x) && Token(s, y))
  }

  lemma TwoPesStart(x: int, y: int)
    requires 0 <= x < 2 && 0 <= y < 2 && x != y
    ensures TwoPes(Start(2), x, y)
  {}

  lemma AfterLockStep(s: State, s': State, x: int, y: int, p: int)
    requires TwoPes(s, x, y) && LockStep(s, s', p) && (p == x || p == y)
    ensures TwoPes(s', x, y)
  {}

  /** The lock words are never zero, so whoever has found a tail gives up. */
  lemma AfterTryStep(s: State, s': State, x: int, y: int, p: int)
    requires TwoPes(s, x, y) && TryStep(s, s', p) && (p == x || p == y)
    ensures TwoPes(s', x, y)
  {}

  lemma AfterUnlockStep(s: State, s': State, x: int, y: int, p: int)
    requires TwoPes(s, x, y) && UnlockStep(s, s', p) && (p == x || p == y)
    ensures TwoPes(s', x, y)
  {}

  lemma AfterAgain(s: State, s': State, x: int, y: int)
    requires TwoPes(s, x, y) && Again(s, s', x)
    ensures TwoPes(s', x, y)
  {}

  lemma {:induction false} TwoPesHold(r: set<int>, x: int, y: int, run: seq<State>, who: seq<int>, i: nat)
    requires LongRun(false, 2, r, run, who) && (forall p :: p in r ==> p == x) && i < |run|
    requires 0 <= x < 2 && 0 <= y < 2 && x != y
    ensures TwoPes(run[i], x, y)
  {
    hide TwoPes, LockStep, TryStep, UnlockStep, Again;
    if i == 0 {
      TwoPesStart(x, y);
    } else {
      TwoPesHold(r, x, y, run, who, i - 1);
      var s, s', p := run[i - 1], run[i], who[i - 1];
      assert Allowed(false, r, s, s', p);
      OneOfTwo(s, s', x, y, p);
      if LockStep(s, s', p) {
        AfterLockStep(s, s', x, y, p);
      } else if TryStep(s, s', p) {
        AfterTryStep(s, s', x, y, p);
      } else if UnlockStep(s, s', p) {
        AfterUnlockStep(s, s', x, y, p);
      } else {
        AfterAgain(s, s', x, y);
      }
    }
  }

  lemma OneOfTwo(s: State, s': State, x: int, y: int, p: int)
    requires TwoPes(s, x, y) && (LockStep(s, s', p) || TryStep(s, s', p) || UnlockStep(s, s', p) || Again(s, s', p))
    ensures p == x || p == y
  {}

  /** Of two PEs, one may call both routines again and again. */
  lemma OneOfTwoMayRepeat(r: set<int>, x: int, run: seq<State>, who: seq<int>)
    requires LongRun(false, 2, r, run, who) && (forall p :: p in r ==> p == x) && 0 <= x < 2
    ensures Exclusive(run)
  {
    hide TwoPes, LongRun;
    forall i, p, q | 0 <= i < |run| && Inside(run[i], p) && Inside(run[i], q) ensures p == q {
      TwoPesHold(r, x, 1 - x, run, who, i);
      InsideOfTwo(run[i], x, 1 - x, p, q);
    }
  }

  lemma InsideOfTwo(s: State, x: int, y: int, p: int, q: int)
    requires TwoPes(s, x, y) && Inside(s, p) && Inside(s, q)
    ensures p == q
  {}

  // ----- fewer than two -----

  lemma {:induction false} PesStay(n: nat, r: set<int>, run: seq<State>, who: seq<int>, i: nat)
    requires LongRun(false, n, r, run, who) && i < |run|
    ensures |run[i].pc| == n
  {
    if i > 0 {
      PesStay(n, r, run, who, i - 1);
      assert Allowed(false, r, run[i - 1], run[i], who[i - 1]);
    }
  }

  lemma OnePeIsAlone(n: nat, r: set<int>, run: seq<State>, who: seq<int>)
    requires LongRun(false, n, r, run, who) && n <= 1
    ensures Exclusive(run)
  {
    hide LongRun;
    forall i, p, q | 0 <= i < |run| && Inside(run[i], p) && Inside(run[i], q) ensures p == q {
      PesStay(n, r, run, who, i);
    }
  }

  // ----- a small run within a larger one -----

  /** PE `i` of the small run is PE `ids[i]` of the large one. */
  predicate Ids(ids: seq<int>, n: nat) {
    && (forall i :: 0 <= i < |ids| ==> 0 <= ids[i] < n)
    && forall i, j :: 0 <= i < j < |ids| ==> ids[i] != ids[j]
  }

  predicate Value(ids: seq<int>, v: int) { NIL <= v < |ids| }

  function Renamed(ids: seq<int>, v: int): int { if 0 <= v < |ids| then ids[v] else NIL }

  function RenamedPc(ids: seq<int>, pc: Pc): Pc {
    match pc
    case Swapped(v) => Swapped(Renamed(ids, v))
    case Waiting(v) => Waiting(Renamed(ids, v))
    case Tried(v) => Tried(Renamed(ids, v))
    case Leaving(v) => Leaving(Renamed(ids, v))
    case Sent(v) => Sent(Renamed(ids, v))
    case Done(v) => Done(Renamed(ids, v))
    case _ => pc
  }

  predicate PcValue(ids: seq<int>, pc: Pc) {
    match pc
    case Swapped(v) => Value(ids, v)
    case Waiting(v) => Value(ids, v)
    case Tried(v) => Value(ids, v)
    case Leaving(v) => Value(ids, v)
    case Sent(v) => Value(ids, v)
    case Done(v) => Value(ids, v)
    case _ => true
  }

  predicate SamePlace(ids: seq<int>, s: State, t: State, i: int) {
    && IsPe(s, i) && 0 <= i < |ids| && IsPe(t, ids[i])
    && Value(ids, s.next[i]) && t.next[ids[i]] == Renamed(ids, s.next[i]) && t.lock[ids[i]] == s.lock[i]
    && PcValue(ids, s.pc[i]) && t.pc[ids[i]] == RenamedPc(ids, s.pc[i])
  }

  ghost predicate Within(ids: seq<int>, n: nat, s: State, t: State) {
    && Ids(ids, n) && |s.pc| == |s.next| == |s.lock| == |ids| && |t.pc| == |t.next| == |t.lock| == n
    && Value(ids, s.tail) && t.tail == Renamed(ids, s.tail)
    && (forall i :: 0 <= i < |ids| ==> SamePlace(ids, s, t, i))
    && (forall i, j :: (i, j) in s.sent ==> 0 <= i < |ids| && 0 <= j < |ids|)
    && (forall i, j :: 0 <= i < |ids| && 0 <= j < |ids| ==> ((i, j) in s.sent <==> (ids[i], ids[j]) in t.sent))
  }

  lemma StartWithin(ids: seq<int>, n: nat)
    requires Ids(ids, n)
    ensures Within(ids, n, Start(|ids|), Start(n))
  {}

  lemma Different(ids: seq<int>, n: nat, i: int, j: int)
    requires Ids(ids, n) && 0 <= i < |ids| && 0 <= j < |ids|
    ensures ids[i] == ids[j] <==> i == j
  {}

  lemma FollowSwapTail(ids: seq<int>, n: nat, s: State, s': State, t: State, p: int) returns (t': State)
    requires Within(ids, n, s, t) && SwapTail(s, s', p)
    ensures 0 <= p < |ids| && SwapTail(t, t', ids[p]) && Within(ids, n, s', t')
  {
    assert SamePlace(ids, s, t, p);
    var a := ids[p];
    t' := At(t, a, if t.tail == NIL then Entering else Swapped(t.tail)).(tail := a);
    forall i | 0 <= i < |ids| ensures SamePlace(ids, s', t', i) {
      assert SamePlace(ids, s, t, i);
      Different(ids, n, i, p);
    }
  }

  lemma FollowTellPrevious(ids: seq<int>, n: nat, s: State, s': State, t: State, p: int) returns (t': State)
    requires Within(ids, n, s, t) && TellPrevious(s, s', p)
    ensures 0 <= p < |ids| && TellPrevious(t, t', ids[p]) && Within(ids, n, s', t')
  {
    assert SamePlace(ids, s, t, p);
    var a := ids[p];
    t' := At(t, a, Waiting(t.pc[a].prev)).(next := t.next[t.pc[a].prev := a]);
    forall i | 0 <= i < |ids| ensures SamePlace(ids, s', t', i) {
      assert SamePlace(ids, s, t, i);
      Different(ids, n, i, p);
      if 0 <= s.pc[p].prev < |ids| { Different(ids, n, i, s.pc[p].prev); }
    }
  }

  lemma FollowProbe(ids: seq<int>, n: nat, s: State, s': State, t: State, p: int) returns (t': State)
    requires Within(ids, n, s, t) && Probe(s, s', p)
    ensures 0 <= p < |ids| && Probe(t, t', ids[p]) && Within(ids, n, s', t')
  {
    assert SamePlace(ids, s, t, p);
    assert (s.pc[p].prev, p) in s.sent;
    var a := ids[p];
    t' := At(t, a, Entering);
    forall i | 0 <= i < |ids| ensures SamePlace(ids, s', t', i) {
      assert SamePlace(ids, s, t, i);
      Different(ids, n, i, p);
    }
  }

  lemma FollowSetLock(ids: seq<int>, n: nat, s: State, s': State, t: State, p: int) returns (t': State)
    requires Within(ids, n, s, t) && SetLock(s, s', p)
    ensures 0 <= p < |ids| && SetLock(t, t', ids[p]) && Within(ids, n, s', t')
  {
    assert SamePlace(ids, s, t, p);
    var a := ids[p];
    t' := At(t, a, Critical).(lock := t.lock[a := 1]);
    forall i | 0 <= i < |ids| ensures SamePlace(ids, s', t', i) {
      assert SamePlace(ids, s, t, i);
      Different(ids, n, i, p);
    }
  }

  lemma FollowCompareAndSwap(ids: seq<int>, n: nat, s: State, s': State, t: State, p: int) returns (t': State)
    requires Within(ids, n, s, t) && CompareAndSwap(s, s', p)
    ensures 0 <= p < |ids| && CompareAndSwap(t, t', ids[p]) && Within(ids, n, s', t')
  {
    assert SamePlace(ids, s, t, p);
    var a := ids[p];
    t' := if t.tail == NIL then At(t, a, Winning).(tail := a) else At(t, a, Tried(t.tail));
    forall i | 0 <= i < |ids| ensures SamePlace(ids, s', t', i) {
      assert SamePlace(ids, s, t, i);
      Different(ids, n, i, p);
    }
  }

  lemma FollowLookAtLock(ids: seq<int>, n: nat, s: State, s': State, t: State, p: int) returns (t': State)
    requires Within(ids, n, s, t) && LookAtLock(s, s', p)
    ensures 0 <= p < |ids| && LookAtLock(t, t', ids[p]) && Within(ids, n, s', t')
  {
    assert SamePlace(ids, s, t, p);
    assert SamePlace(ids, s, t, s.pc[p].prev);
    var a := ids[p];
    t' := At(t, a, if t.lock[t.pc[a].prev] != 0 then Idle else Winning);
    forall i | 0 <= i < |ids| ensures SamePlace(ids, s', t', i) {
      assert SamePlace(ids, s, t, i);
      Different(ids, n, i, p);
    }
  }

  lemma FollowSwapAgain(ids: seq<int>, n: nat, s: State, s': State, t: State, p: int) returns (t': State)
    requires Within(ids, n, s, t) && SwapAgain(s, s', p)
    ensures 0 <= p < |ids| && SwapAgain(t, t', ids[p]) && Within(ids, n, s', t')
  {
    assert SamePlace(ids, s, t, p);
    var a := ids[p];
    t' := At(t, a, Entering).(tail := a);
    forall i | 0 <= i < |ids| ensures SamePlace(ids, s', t', i) {
      assert SamePlace(ids, s, t, i);
      Different(ids, n, i, p);
    }
  }

  lemma FollowReadNext(ids: seq<int>, n: nat, s: State, s': State, t: State, p: int) returns (t': State)
    requires Within(ids, n, s, t) && ReadNext(s, s', p)
    ensures 0 <= p < |ids| && ReadNext(t, t', ids[p]) && Within(ids, n, s', t')
  {
    assert SamePlace(ids, s, t, p);
    var a := ids[p];
    t' := At(t, a, Leaving(t.next[a]));
    forall i | 0 <= i < |ids| ensures SamePlace(ids, s', t', i) {
      assert SamePlace(ids, s, t, i);
      Different(ids, n, i, p);
    }
  }

  lemma FollowNotify(ids: seq<int>, n: nat, s: State, s': State, t: State, p: int) returns (t': State)
    requires Within(ids, n, s, t) && Notify(s, s', p)
    ensures 0 <= p < |ids| && Notify(t, t', ids[p]) && Within(ids, n, s', t')
  {
    assert SamePlace(ids, s, t, p);
    var a := ids[p];
    t' := At(t, a, Sent(t.pc[a].next)).(sent := if t.pc[a].next == NIL then t.sent else t.sent + {(a, t.pc[a].next)});
    forall i | 0 <= i < |ids| ensures SamePlace(ids, s', t', i) {
      assert SamePlace(ids, s, t, i);
      Different(ids, n, i, p);
    }
    forall i, j | 0 <= i < |ids| && 0 <= j < |ids| ensures (i, j) in s'.sent <==> (ids[i], ids[j]) in t'.sent {
      Different(ids, n, i, p);
      if 0 <= s.pc[p].next < |ids| { Different(ids, n, j, s.pc[p].next); }
    }
  }

  lemma FollowClearLock(ids: seq<int>, n: nat, s: State, s': State, t: State, p: int) returns (t': State)
    requires Within(ids, n, s, t) && ClearLock(s, s', p)
    ensures 0 <= p < |ids| && ClearLock(t, t', ids[p]) && Within(ids, n, s', t')
  {
    assert SamePlace(ids, s, t, p);
    var a := ids[p];
    t' := At(t, a, Done(t.pc[a].next)).(lock := t.lock[a := NIL]);
    forall i | 0 <= i < |ids| ensures SamePlace(ids, s', t', i) {
      assert SamePlace(ids, s, t, i);
      Different(ids, n, i, p);
    }
  }

  lemma FollowAgain(ids: seq<int>, n: nat, s: State, s': State, t: State, p: int) returns (t': State)
    requires Within(ids, n, s, t) && Again(s, s', p)
    ensures 0 <= p < |ids| && Again(t, t', ids[p]) && Within(ids, n, s', t')
  {
    assert SamePlace(ids, s, t, p);
    var a := ids[p];
    t' := At(t, a, Idle);
    forall i | 0 <= i < |ids| ensures SamePlace(ids, s', t', i) {
      assert SamePlace(ids, s, t, i);
      Different(ids, n, i, p);
    }
  }


  lemma Follow(plain: bool, r: set<int>, ids: seq<int>, n: nat, all: set<int>, s: State, s': State, t: State, p: int)
    returns (t': State)
    requires Within(ids, n, s, t) && Allowed(plain, all, s, s', p)
    requires forall i :: 0 <= i < |ids| && i in all ==> ids[i] in r
    ensures 0 <= p < |ids| && Allowed(plain, r, t, t', ids[p]) && Within(ids, n, s', t')
  {
    hide Within, SwapTail, TellPrevious, Probe, SetLock, CompareAndSwap, LookAtLock, SwapAgain, ReadNext, Notify;
    hide ClearLock, Again;
    if SwapTail(s, s', p) {
      t' := FollowSwapTail(ids, n, s, s', t, p);
    } else if TellPrevious(s, s', p) {
      t' := FollowTellPrevious(ids, n, s, s', t, p);
    } else if Probe(s, s', p) {
      t' := FollowProbe(ids, n, s, s', t, p);
    } else if SetLock(s, s', p) {
      t' := FollowSetLock(ids, n, s, s', t, p);
    } else if ReadNext(s, s', p) {
      t' := FollowReadNext(ids, n, s, s', t, p);
    } else if Notify(s, s', p) {
      t' := FollowNotify(ids, n, s, s', t, p);
    } else if ClearLock(s, s', p) {
      t' := FollowClearLock(ids, n, s, s', t, p);
    } else if !plain && CompareAndSwap(s, s', p) {
      t' := FollowCompareAndSwap(ids, n, s, s', t, p);
    } else if !plain && LookAtLock(s, s', p) {
      t' := FollowLookAtLock(ids, n, s, s', t, p);
    } else if !plain && SwapAgain(s, s', p) {
      t' := FollowSwapAgain(ids, n, s, s', t, p);
    } else {
      t' := FollowAgain(ids, n, s, s', t, p);
    }
  }

  /** A run of a few PEs is a run of them among more, where the others do nothing. */
  lemma {:induction false} Among(plain: bool, n: nat, r: set<int>, ids: seq<int>, all: set<int>, run: seq<State>,
      who: seq<int>)
    returns (run': seq<State>, who': seq<int>)
    requires Ids(ids, n) && LongRun(plain, |ids|, all, run, who)
    requires forall i :: 0 <= i < |ids| && i in all ==> ids[i] in r
    ensures LongRun(plain, n, r, run', who') && |run'| == |run|
    ensures Within(ids, n, run[|run| - 1], run'[|run| - 1])
    decreases |who|
  {
    hide Within, Allowed;
    if who == [] {
      StartWithin(ids, n);
      run', who' := [Start(n)], [];
    } else {
      var k := |who| - 1;
      run', who' := Among(plain, n, r, ids, all, run[..k + 1], who[..k]);
      var t := Follow(plain, r, ids, n, all, run[k], run[k + 1], run'[k], who[k]);
      run', who' := run' + [t], who' + [ids[who[k]]];
    }
  }

  lemma StillInside(ids: seq<int>, n: nat, s: State, t: State, p: int, q: int)
    requires Within(ids, n, s, t) && Inside(s, p) && Inside(s, q) && p != q
    ensures Ids(ids, n) && 0 <= p < |ids| && 0 <= q < |ids| && ids[p] != ids[q] && Inside(t, ids[p])
    ensures Inside(t, ids[q])
  {
    assert SamePlace(ids, s, t, p) && SamePlace(ids, s, t, q);
    Different(ids, n, p, q);
  }

  // ----- two PEs that both call the lock twice -----

  /** A run of two PEs in which both are inside, once each has called `oshmpi_lock` twice: the message that nobody has
      received lets PE 1 in while PE 0 holds the lock. */
  function Episodes(i: nat): State {
    if i == 0 then State(-1, [-1, -1], [-1, -1], {}, [Idle, Idle])
    else if i == 1 then State(0, [-1, -1], [-1, -1], {}, [Entering, Idle])
    else if i == 2 then State(0, [-1, -1], [1, -1], {}, [Critical, Idle])
    else if i == 3 then State(1, [-1, -1], [1, -1], {}, [Critical, Swapped(0)])
    else if i == 4 then State(1, [1, -1], [1, -1], {}, [Critical, Waiting(0)])
    else if i == 5 then State(1, [1, -1], [1, -1], {}, [Leaving(1), Waiting(0)])
    else if i == 6 then State(1, [1, -1], [1, -1], {(0, 1)}, [Sent(1), Waiting(0)])
    else if i == 7 then State(1, [1, -1], [-1, -1], {(0, 1)}, [Done(1), Waiting(0)])
    else if i == 8 then State(1, [1, -1], [-1, -1], {(0, 1)}, [Done(1), Entering])
    else if i == 9 then State(1, [1, -1], [-1, 1], {(0, 1)}, [Done(1), Critical])
    else if i == 10 then State(1, [1, -1], [-1, 1], {(0, 1)}, [Idle, Critical])
    else if i == 11 then State(0, [1, -1], [-1, 1], {(0, 1)}, [Swapped(1), Critical])
    else if i == 12 then State(0, [1, 0], [-1, 1], {(0, 1)}, [Waiting(1), Critical])
    else if i == 13 then State(0, [1, 0], [-1, 1], {(0, 1)}, [Waiting(1), Leaving(0)])
    else if i == 14 then State(0, [1, 0], [-1, 1], {(0, 1), (1, 0)}, [Waiting(1), Sent(0)])
    else if i == 15 then State(0, [1, 0], [-1, -1], {(0, 1), (1, 0)}, [Waiting(1), Done(0)])
    else if i == 16 then State(0, [1, 0], [-1, -1], {(0, 1), (1, 0)}, [Entering, Done(0)])
    else if i == 17 then State(0, [1, 0], [1, -1], {(0, 1), (1, 0)}, [Critical, Done(0)])
    else if i == 18 then State(0, [1, 0], [1, -1], {(0, 1), (1, 0)}, [Critical, Idle])
    else if i == 19 then State(1, [1, 0], [1, -1], {(0, 1), (1, 0)}, [Critical, Swapped(0)])
    else if i == 20 then State(1, [1, 0], [1, -1], {(0, 1), (1, 0)}, [Critical, Waiting(0)])
    else if i == 21 then State(1, [1, 0], [1, -1], {(0, 1), (1, 0)}, [Critical, Entering])
    else State(1, [1, 0], [1, 1], {(0, 1), (1, 0)}, [Critical, Critical])
  }

  /** Whose step follows. */
  function Mover(i: nat): int { if i in {2, 3, 7, 8, 12, 13, 14, 17, 18, 19, 20, 21} then 1 else 0 }

  /** It is a step of the code, or a new call of `oshmpi_lock`. */
  predicate EpisodeStep(i: nat) { Allowed(true, {0, 1}, Episodes(i), Episodes(i + 1), Mover(i)) }

  lemma FirstHandOff()
    ensures forall i: nat :: 0 <= i < 5 ==> EpisodeStep(i)
  {
    assert SwapTail(Episodes(0), Episodes(1), 0);
    assert SetLock(Episodes(1), Episodes(2), 0);
    assert SwapTail(Episodes(2), Episodes(3), 1);
    assert TellPrevious(Episodes(3), Episodes(4), 1);
    assert ReadNext(Episodes(4), Episodes(5), 0);
  }

  lemma FirstReturn()
    ensures forall i: nat :: 5 <= i < 10 ==> EpisodeStep(i)
  {
    assert Notify(Episodes(5), Episodes(6), 0);
    assert ClearLock(Episodes(6), Episodes(7), 0);
    assert Probe(Episodes(7), Episodes(8), 1);
    assert SetLock(Episodes(8), Episodes(9), 1);
    assert Again(Episodes(9), Episodes(10), 0);
  }

  lemma SecondHandOff()
    ensures forall i: nat :: 10 <= i < 13 ==> EpisodeStep(i)
  {
    assert SwapTail(Episodes(10), Episodes(11), 0);
    assert TellPrevious(Episodes(11), Episodes(12), 0);
    assert ReadNext(Episodes(12), Episodes(13), 1);
  }

  lemma SecondNotice()
    ensures forall i: nat :: 13 <= i < 16 ==> EpisodeStep(i)
  {
    assert Notify(Episodes(13), Episodes(14), 1);
    assert ClearLock(Episodes(14), Episodes(15), 1);
    assert Probe(Episodes(15), Episodes(16), 0);
  }

  lemma SecondReturn()
    ensures forall i: nat :: 16 <= i < 19 ==> EpisodeStep(i)
  {
    assert SetLock(Episodes(16), Episodes(17), 0);
    assert Again(Episodes(17), Episodes(18), 1);
    assert SwapTail(Episodes(18), Episodes(19), 1);
  }

  lemma StaleMessage()
    ensures forall i: nat :: 19 <= i < 22 ==> EpisodeStep(i)
  {
    assert TellPrevious(Episodes(19), Episodes(20), 1);
    assert Probe(Episodes(20), Episodes(21), 1);
    assert SetLock(Episodes(21), Episodes(22), 1);
  }

  /** The first `k` steps. */
  function {:induction false} Story(k: nat): (r: seq<State>)
    ensures |r| == k + 1 && forall i :: 0 <= i <= k ==> r[i] == Episodes(i)
  {
    if k == 0 then [Episodes(0)] else Story(k - 1) + [Episodes(k)]
  }

  function Movers(k: nat): (r: seq<int>)
    ensures |r| == k && forall i :: 0 <= i < k ==> r[i] == Mover(i)
  {
    if k == 0 then [] else Movers(k - 1) + [Mover(k - 1)]
  }

  lemma StoryEnds()
    ensures Episodes(0) == Start(2) && Inside(Episodes(22), 0) && Inside(Episodes(22), 1)
  {
    assert Constant(2, NIL) == [-1, -1] && AllIdle(2) == [Idle, Idle];
  }

  lemma EveryStep(i: nat)
    requires i < 22
    ensures Allowed(true, {0, 1}, Episodes(i), Episodes(i + 1), Mover(i))
  {
    hide EpisodeStep, Episodes, Mover, Allowed;
    FirstHandOff();
    FirstReturn();
    SecondHandOff();
    SecondNotice();
    SecondReturn();
    StaleMessage();
    assert EpisodeStep(i);
    StepOf(i);
  }

  /** Both are inside at the end. */
  lemma ReacquisitionFails()
    ensures LongRun(true, 2, {0, 1}, Story(22), Movers(22))
    ensures Inside(Story(22)[22], 0) && Inside(Story(22)[22], 1)
  {
    hide Episodes, Mover, Allowed, Story, Movers, Inside;
    StoryEnds();
    forall i | 0 <= i < 22
      ensures Allowed(true, {0, 1}, Story(22)[i], Story(22)[i + 1], Movers(22)[i])
    {
      EveryStep(i);
    }
  }

  lemma StepOf(i: nat)
    requires EpisodeStep(i)
    ensures Allowed(true, {0, 1}, Episodes(i), Episodes(i + 1), Mover(i))
  {}

  /** With `oshmpi_lock` only, mutual exclusion holds of all runs exactly when at most one PE may acquire the lock more
      than once. */
  lemma ExclusiveIffOneRepeats(n: nat, r: set<int>)
    requires forall p :: p in r ==> 0 <= p < n
    ensures (forall run, who :: LongRun(true, n, r, run, who) ==> Exclusive(run)) <==>
      (forall p, q :: p in r && q in r ==> p == q)
  {
    hide LongRun;
    hide Exclusive;
    if a, b :| a in r && b in r && a != b {
      var run, who := RepeatingBreaks(n, r, a, b);
    } else {
      var x := Only(r);
      forall run, who | LongRun(true, n, r, run, who) ensures Exclusive(run) { OneMayRepeat(n, r, x, run, who); }
    }
  }

  // ----- three PEs, one of which calls the lock twice, and one of which tries it -----

  /** PE 1 tries the lock; before its second swap PE 0 queues behind it, so that PE 1 becomes the tail a second time.
      When PE 0 comes back it queues behind PE 1 again, and finds the message of the first time. */
  function Overtaking(i: nat): State {
    if i == 0 then State(-1, [-1, -1, -1], [-1, -1, -1], {}, [Idle, Idle, Idle])
    else if i == 1 then State(1, [-1, -1, -1], [-1, -1, -1], {}, [Idle, Winning, Idle])
    else if i == 2 then State(0, [-1, -1, -1], [-1, -1, -1], {}, [Swapped(1), Winning, Idle])
    else if i == 3 then State(0, [-1, 0, -1], [-1, -1, -1], {}, [Waiting(1), Winning, Idle])
    else if i == 4 then State(2, [-1, 0, -1], [-1, -1, -1], {}, [Waiting(1), Winning, Swapped(0)])
    else if i == 5 then State(1, [-1, 0, -1], [-1, -1, -1], {}, [Waiting(1), Entering, Swapped(0)])
    else if i == 6 then State(1, [-1, 0, -1], [-1, 1, -1], {}, [Waiting(1), Critical, Swapped(0)])
    else if i == 7 then State(1, [-1, 0, -1], [-1, 1, -1], {}, [Waiting(1), Leaving(0), Swapped(0)])
    else if i == 8 then State(1, [-1, 0, -1], [-1, 1, -1], {(1, 0)}, [Waiting(1), Sent(0), Swapped(0)])
    else if i == 9 then State(1, [-1, 0, -1], [-1, 1, -1], {(1, 0)}, [Entering, Sent(0), Swapped(0)])
    else if i == 10 then State(1, [-1, 0, -1], [1, 1, -1], {(1, 0)}, [Critical, Sent(0), Swapped(0)])
    else if i == 11 then State(1, [2, 0, -1], [1, 1, -1], {(1, 0)}, [Critical, Sent(0), Waiting(0)])
    else if i == 12 then State(1, [2, 0, -1], [1, 1, -1], {(1, 0)}, [Leaving(2), Sent(0), Waiting(0)])
    else if i == 13 then State(1, [2, 0, -1], [1, 1, -1], {(0, 2), (1, 0)}, [Sent(2), Sent(0), Waiting(0)])
    else if i == 14 then State(1, [2, 0, -1], [-1, 1, -1], {(0, 2), (1, 0)}, [Done(2), Sent(0), Waiting(0)])
    else if i == 15 then State(1, [2, 0, -1], [-1, 1, -1], {(0, 2), (1, 0)}, [Idle, Sent(0), Waiting(0)])
    else if i == 16 then State(0, [2, 0, -1], [-1, 1, -1], {(0, 2), (1, 0)}, [Swapped(1), Sent(0), Waiting(0)])
    else if i == 17 then State(0, [2, 0, -1], [-1, 1, -1], {(0, 2), (1, 0)}, [Waiting(1), Sent(0), Waiting(0)])
    else if i == 18 then State(0, [2, 0, -1], [-1, 1, -1], {(0, 2), (1, 0)}, [Entering, Sent(0), Waiting(0)])
    else if i == 19 then State(0, [2, 0, -1], [1, 1, -1], {(0, 2), (1, 0)}, [Critical, Sent(0), Waiting(0)])
    else if i == 20 then State(0, [2, 0, -1], [1, 1, -1], {(0, 2), (1, 0)}, [Critical, Sent(0), Entering])
    else State(0, [2, 0, -1], [1, 1, 1], {(0, 2), (1, 0)}, [Critical, Sent(0), Critical])
  }

  function Overtaker(i: nat): int {
    if 0 <= i < 21 then [1, 0, 0, 2, 1, 1, 1, 1, 0, 0, 2, 0, 0, 0, 0, 0, 0, 0, 0, 2, 2][i] else 0
  }

  predicate OvertakingStep(i: nat) { Allowed(false, {0}, Overtaking(i), Overtaking(i + 1), Overtaker(i)) }

  lemma OvertakingFirst()
    ensures forall i: nat :: 0 <= i < 3 ==> OvertakingStep(i)
  {
    assert CompareAndSwap(Overtaking(0), Overtaking(1), 1);
    assert SwapTail(Overtaking(1), Overtaking(2), 0);
    assert TellPrevious(Overtaking(2), Overtaking(3), 0);
  }

  lemma OvertakingSecond()
    ensures forall i: nat :: 3 <= i < 6 ==> OvertakingStep(i)
  {
    assert SwapTail(Overtaking(3), Overtaking(4), 2);
    assert SwapAgain(Overtaking(4), Overtaking(5), 1);
    assert SetLock(Overtaking(5), Overtaking(6), 1);
  }

  lemma OvertakingThird()
    ensures forall i: nat :: 6 <= i < 9 ==> OvertakingStep(i)
  {
    assert ReadNext(Overtaking(6), Overtaking(7), 1);
    assert Notify(Overtaking(7), Overtaking(8), 1);
    assert Probe(Overtaking(8), Overtaking(9), 0);
  }

  lemma OvertakingFourth()
    ensures forall i: nat :: 9 <= i < 12 ==> OvertakingStep(i)
  {
    assert SetLock(Overtaking(9), Overtaking(10), 0);
    assert TellPrevious(Overtaking(10), Overtaking(11), 2);
    assert ReadNext(Overtaking(11), Overtaking(12), 0);
  }

  lemma OvertakingFifth()
    ensures forall i: nat :: 12 <= i < 15 ==> OvertakingStep(i)
  {
    assert Notify(Overtaking(12), Overtaking(13), 0);
    assert ClearLock(Overtaking(13), Overtaking(14), 0);
    assert Again(Overtaking(14), Overtaking(15), 0);
  }

  lemma OvertakingSixth()
    ensures forall i: nat :: 15 <= i < 18 ==> OvertakingStep(i)
  {
    assert SwapTail(Overtaking(15), Overtaking(16), 0);
    assert TellPrevious(Overtaking(16), Overtaking(17), 0);
    assert Probe(Overtaking(17), Overtaking(18), 0);
  }

  lemma OvertakingSeventh()
    ensures forall i: nat :: 18 <= i < 21 ==> OvertakingStep(i)
  {
    assert SetLock(Overtaking(18), Overtaking(19), 0);
    assert Probe(Overtaking(19), Overtaking(20), 2);
    assert SetLock(Overtaking(20), Overtaking(21), 2);
  }

  lemma OvertakingSteps(i: nat)
    requires i < 21
    ensures Allowed(false, {0}, Overtaking(i), Overtaking(i + 1), Overtaker(i))
  {
    hide OvertakingStep, Overtaking, Overtaker, Allowed;
    OvertakingFirst();
    OvertakingSecond();
    OvertakingThird();
    OvertakingFourth();
    OvertakingFifth();
    OvertakingSixth();
    OvertakingSeventh();
    assert OvertakingStep(i);
    OvertakingStepOf(i);
  }

  lemma OvertakingStepOf(i: nat)
    requires OvertakingStep(i)
    ensures Allowed(false, {0}, Overtaking(i), Overtaking(i + 1), Overtaker(i))
  {}

  lemma OvertakingEnds()
    ensures Overtaking(0) == Start(3) && Inside(Overtaking(21), 0) && Inside(Overtaking(21), 2)
  {
    assert Constant(3, NIL) == [-1, -1, -1] && AllIdle(3) == [Idle, Idle, Idle];
  }

  function TryStory(k: nat): (r: seq<State>)
    ensures |r| == k + 1 && forall i :: 0 <= i <= k ==> r[i] == Overtaking(i)
  {
    if k == 0 then [Overtaking(0)] else TryStory(k - 1) + [Overtaking(k)]
  }

  function TryMovers(k: nat): (r: seq<int>)
    ensures |r| == k && forall i :: 0 <= i < k ==> r[i] == Overtaker(i)
  {
    if k == 0 then [] else TryMovers(k - 1) + [Overtaker(k - 1)]
  }

  /** PEs 0 and 2 are inside at the end. */
  lemma TryingFails()
    ensures LongRun(false, 3, {0}, TryStory(21), TryMovers(21))
    ensures Inside(TryStory(21)[21], 0) && Inside(TryStory(21)[21], 2)
  {
    hide Overtaking, Overtaker, Allowed, TryStory, TryMovers, Inside;
    OvertakingEnds();
    forall i | 0 <= i < 21
      ensures Allowed(false, {0}, TryStory(21)[i], TryStory(21)[i + 1], TryMovers(21)[i])
    {
      OvertakingSteps(i);
    }
  }

  lemma OnceEach(n: nat, run: seq<State>, who: seq<int>)
    requires LongRun(false, n, {}, run, who)
    ensures Run(n, run, who)
  {
    forall i | 0 <= i < |who| ensures Step(run[i], run[i + 1], who[i]) {
      assert Allowed(false, {}, run[i], run[i + 1], who[i]);
    }
  }

  lemma ThreePes(n: nat, a: int) returns (ids: seq<int>)
    requires n >= 3 && 0 <= a < n
    ensures |ids| == 3 && ids[0] == a && Ids(ids, n)
  {
    ids := [a, if a == 0 then 1 else 0, if a == 2 then 1 else 2];
  }

  lemma NotExclusive(run: seq<State>, i: nat, p: int, q: int)
    requires i < |run| && Inside(run[i], p) && Inside(run[i], q) && p != q
    ensures !Exclusive(run)
  {}

  /** A PE that may repeat, and two others, can break it. */
  lemma TryingBreaks(n: nat, r: set<int>, a: int) returns (run: seq<State>, who: seq<int>)
    requires n >= 3 && a in r && 0 <= a < n
    ensures LongRun(false, n, r, run, who) && !Exclusive(run)
  {
    hide LongRun, Within;
    hide Overtaking, Overtaker, TryStory, TryMovers, Exclusive;
    var ids := ThreePes(n, a);
    TryingFails();
    run, who := Among(false, n, r, ids, {0}, TryStory(21), TryMovers(21));
    StillInside(ids, n, TryStory(21)[21], run[21], 0, 2);
    NotExclusive(run, 21, ids[0], ids[2]);
  }

  /** Two PEs that may repeat can break it with `oshmpi_lock` only. */
  lemma RepeatingBreaks(n: nat, r: set<int>, a: int, b: int) returns (run: seq<State>, who: seq<int>)
    requires a in r && b in r && a != b && 0 <= a < n && 0 <= b < n
    ensures LongRun(true, n, r, run, who) && !Exclusive(run)
  {
    hide LongRun, Within, Episodes, Mover, Story, Movers, Exclusive;
    ReacquisitionFails();
    run, who := Among(true, n, r, [a, b], {0, 1}, Story(22), Movers(22));
    StillInside([a, b], n, Story(22)[22], run[22], 0, 1);
    NotExclusive(run, 22, a, b);
  }

  lemma OnceIsExclusive(n: nat, run: seq<State>, who: seq<int>)
    requires LongRun(false, n, {}, run, who)
    ensures Exclusive(run)
  {
    OnceEach(n, run, who);
    forall i, p, q | 0 <= i < |run| && Inside(run[i], p) && Inside(run[i], q) ensures p == q {
      MutualExclusion(n, run, who, i, p, q);
    }
  }

  lemma PlainIsLong(n: nat, r: set<int>, run: seq<State>, who: seq<int>)
    requires LongRun(true, n, r, run, who)
    ensures LongRun(false, n, r, run, who)
  {
    forall i | 0 <= i < |who| ensures Allowed(false, r, run[i], run[i + 1], who[i]) {
      assert Allowed(true, r, run[i], run[i + 1], who[i]);
    }
  }

  /** Which PEs may acquire the lock more than once when `oshmpi_trylock` is used too: of three or more none, of two
      one, and a single one does as it likes. */
  predicate FewRepeat(n: nat, r: set<int>) {
    r == {} || n <= 1 || (n == 2 && forall p, q :: p in r && q in r ==> p == q)
  }

  lemma FewIsExclusive(n: nat, r: set<int>, run: seq<State>, who: seq<int>)
    requires FewRepeat(n, r) && LongRun(false, n, r, run, who) && forall p :: p in r ==> 0 <= p < n
    ensures Exclusive(run)
  {
    hide LongRun, Exclusive;
    if r == {} {
      OnceIsExclusive(n, run, who);
    } else if n <= 1 {
      OnePeIsAlone(n, r, run, who);
    } else {
      var x := AnyOf(r);
      OneOfTwoMayRepeat(r, x, run, who);
    }
  }

  lemma ManyBreaks(n: nat, r: set<int>) returns (run: seq<State>, who: seq<int>)
    requires !FewRepeat(n, r) && forall p :: p in r ==> 0 <= p < n
    ensures LongRun(false, n, r, run, who) && !Exclusive(run)
  {
    hide LongRun, Exclusive;
    if n >= 3 {
      var a := AnyOf(r);
      run, who := TryingBreaks(n, r, a);
    } else {
      var a, b :| a in r && b in r && a != b;
      run, who := RepeatingBreaks(n, r, a, b);
      PlainIsLong(n, r, run, who);
    }
  }

  /** With `oshmpi_trylock` too, mutual exclusion holds of all runs exactly when that few PEs may repeat. */
  lemma ExclusiveIffFewRepeat(n: nat, r: set<int>)
    requires forall p :: p in r ==> 0 <= p < n
    ensures (forall run, who :: LongRun(false, n, r, run, who) ==> Exclusive(run)) <==> FewRepeat(n, r)
  {
    hide LongRun, Exclusive, FewRepeat;
    if FewRepeat(n, r) {
      forall run, who | LongRun(false, n, r, run, who) ensures Exclusive(run) { FewIsExclusive(n, r, run, who); }
    } else {
      var run, who := ManyBreaks(n, r);
    }
  }
}
