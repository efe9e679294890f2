/** The distributed queue lock, as interleaved atomic steps of any number of PEs.

    The words of the lock window are `tail` (kept at PE 0) and, on every PE, `next` and `lock`; messages that have been
    sent stay pending, because a probe does not receive them. Every step is one remote operation of one PE, or one
    local change that others can see. */
module McsLock {

  const NIL: int := -1

  /** Where a PE is in `oshmpi_lock`, `oshmpi_trylock` and `oshmpi_unlock`. */
  datatype Pc =
    | Idle
    | Swapped(prev: int)   // oshmpi_lock: behind `prev` in the queue
    | Waiting(prev: int)   // oshmpi_lock: has told `prev`, and probes for its message
    | Tried(prev: int)     // oshmpi_trylock: the compare-and-swap has found `prev`
    | Winning              // oshmpi_trylock: about to swap itself in again
    | Entering             // acquired, lock word not yet set
    | Critical             // oshmpi_lock or oshmpi_trylock has returned
    | Leaving(next: int)   // oshmpi_unlock has read its own next word
    | Sent(next: int)      // the message to `next` is on its way, or none was due
    | Done(next: int)

  datatype State = State(tail: int, next: seq<int>, lock: seq<int>, sent: set<(int, int)>, pc: seq<Pc>)

  predicate IsPe(s: State, p: int) { 0 <= p < |s.pc| && |s.next| == |s.pc| && |s.lock| == |s.pc| }

  function At(s: State, p: int, pc: Pc): State
    requires IsPe(s, p)
  {
    s.(pc := s.pc[p := pc])
  }

  function Constant(n: nat, v: int): (r: seq<int>)
    ensures |r| == n && forall i :: 0 <= i < n ==> r[i] == v
  {
    if n == 0 then [] else [v] + Constant(n - 1, v)
  }

  function AllIdle(n: nat): (r: seq<Pc>)
    ensures |r| == n && forall i :: 0 <= i < n ==> r[i] == Idle
  {
    if n == 0 then [] else [Idle] + AllIdle(n - 1)
  }

  /** `oshmpi_allock` */
  function Start(n: nat): State { State(NIL, Constant(n, NIL), Constant(n, NIL), {}, AllIdle(n)) }

  // ----- the steps of oshmpi_lock -----

  predicate SwapTail(s: State, s': State, p: int) {
    IsPe(s, p) && s.pc[p] == Idle && s' == At(s, p, if s.tail == NIL then Entering else Swapped(s.tail)).(tail := p)
  }

  predicate TellPrevious(s: State, s': State, p: int) {
    IsPe(s, p) && s.pc[p].Swapped? && IsPe(s, s.pc[p].prev)
    && s' == At(s, p, Waiting(s.pc[p].prev)).(next := s.next[s.pc[p].prev := p])
  }

  predicate Probe(s: State, s': State, p: int) {
    IsPe(s, p) && s.pc[p].Waiting? && (s.pc[p].prev, p) in s.sent && s' == At(s, p, Entering)
  }

  predicate SetLock(s: State, s': State, p: int) {
    IsPe(s, p) && s.pc[p] == Entering && s' == At(s, p, Critical).(lock := s.lock[p := 1])
  }

  // ----- the steps of oshmpi_trylock -----

  predicate CompareAndSwap(s: State, s': State, p: int) {
    IsPe(s, p) && s.pc[p] == Idle
    && s' == if s.tail == NIL then At(s, p, Winning).(tail := p) else At(s, p, Tried(s.tail))
  }

  /** The lock word of the last PE is tested for being zero. */
  predicate LookAtLock(s: State, s': State, p: int) {
    IsPe(s, p) && s.pc[p].Tried? && IsPe(s, s.pc[p].prev)
    && s' == At(s, p, if s.lock[s.pc[p].prev] != 0 then Idle else Winning)
  }

  predicate SwapAgain(s: State, s': State, p: int) {
    IsPe(s, p) && s.pc[p] == Winning && s' == At(s, p, Entering).(tail := p)
  }

  // ----- the steps of oshmpi_unlock -----

  predicate ReadNext(s: State, s': State, p: int) {
    IsPe(s, p) && s.pc[p] == Critical && s' == At(s, p, Leaving(s.next[p]))
  }

  predicate Notify(s: State, s': State, p: int) {
    IsPe(s, p) && s.pc[p].Leaving?
    && var n := s.pc[p].next; s' == At(s, p, Sent(n)).(sent := if n == NIL then s.sent else s.sent + {(p, n)})
  }

  predicate ClearLock(s: State, s': State, p: int) {
    IsPe(s, p) && s.pc[p].Sent? && s' == At(s, p, Done(s.pc[p].next)).(lock := s.lock[p := NIL])
  }

  predicate LockStep(s: State, s': State, p: int) {
    SwapTail(s, s', p) || TellPrevious(s, s', p) || Probe(s, s', p) || SetLock(s, s', p)
  }

  predicate TryStep(s: State, s': State, p: int) {
    CompareAndSwap(s, s', p) || LookAtLock(s, s', p) || SwapAgain(s, s', p) || SetLock(s, s', p)
  }

  predicate UnlockStep(s: State, s': State, p: int) { ReadNext(s, s', p) || Notify(s, s', p) || ClearLock(s, s', p) }

  /** One step of an episode in which every PE acquires the lock at most once. */
  predicate Step(s: State, s': State, p: int) { LockStep(s, s', p) || TryStep(s, s', p) || UnlockStep(s, s', p) }

  /** A run of `n` PEs from the allocation of the lock; `who` says whose step each one is. */
  ghost predicate Run(n: nat, run: seq<State>, who: seq<int>) {
    && |run| == |who| + 1 && run[0] == Start(n)
    && forall i :: 0 <= i < |who| ==> Step(run[i], run[i + 1], who[i])
  }

  // ----- mutual exclusion -----

  predicate Entered(pc: Pc) { pc.Entering? || pc.Critical? || pc.Leaving? || pc.Sent? || pc.Done? }

  /** The right to enter is with `p`, or in a message to `p`. */
  predicate Token(s: State, p: int) {
    IsPe(s, p) &&
    (s.pc[p].Winning? || s.pc[p].Entering? || s.pc[p].Critical? || s.pc[p].Leaving?
     || (s.pc[p].Waiting? && (s.pc[p].prev, p) in s.sent))
  }

  ghost predicate WellFormed(s: State) {
    && |s.next| == |s.pc| && |s.lock| == |s.pc|
    && (s.tail == NIL || IsPe(s, s.tail))
    && (forall p :: 0 <= p < |s.pc| ==> s.lock[p] == NIL || s.lock[p] == 1)
    && (s.tail == NIL ==> forall p :: 0 <= p < |s.pc| ==> s.pc[p] == Idle)
  }

  /** `tail` and all `prev` are PEs that have joined the queue. */
  predicate Joined(s: State, p: int) { IsPe(s, p) && !s.pc[p].Idle? && !s.pc[p].Tried? }

  ghost predicate PrevOk(s: State, p: int)
    requires IsPe(s, p)
  {
    && (s.pc[p].Swapped? || s.pc[p].Waiting? ==> Joined(s, s.pc[p].prev) && s.pc[p].prev != p)
    && (s.pc[p].Tried? ==> IsPe(s, s.pc[p].prev))
  }

  /** Whoever is told to be next waits for that message or has got it. */
  ghost predicate NextOk(s: State, p: int)
    requires IsPe(s, p)
  {
    var q := s.next[p];
    q != NIL ==> IsPe(s, q) && q != p && (s.pc[q] == Waiting(p) || (Entered(s.pc[q]) && (p, q) in s.sent))
  }

  ghost predicate SentOk(s: State, p: int, q: int) {
    && IsPe(s, p) && IsPe(s, q) && (s.pc[p] == Sent(q) || s.pc[p] == Done(q))
    && (s.pc[q] == Waiting(p) || Entered(s.pc[q]))
  }

  ghost predicate LeavingOk(s: State, p: int)
    requires IsPe(s, p)
  {
    && (s.pc[p].Leaving? && s.pc[p].next != NIL ==> IsPe(s, s.pc[p].next) && s.pc[s.pc[p].next] == Waiting(p))
    && (s.pc[p].Sent? || s.pc[p].Done? ==> s.pc[p].next == NIL || (p, s.pc[p].next) in s.sent)
  }

  ghost predicate Invariant(s: State) {
    && WellFormed(s)
    && (s.tail != NIL ==> Joined(s, s.tail))
    && (forall p :: IsPe(s, p) ==> PrevOk(s, p) && NextOk(s, p) && LeavingOk(s, p))
    && (forall p, q :: (p, q) in s.sent ==> SentOk(s, p, q))
    && (forall p, q :: Token(s, p) && Token(s, q) ==> p == q)
  }

  lemma InvariantStarts(n: nat)
    ensures Invariant(Start(n))
  {}

  lemma ShapeKept(s: State, s': State, p: int)
    requires Invariant(s) && Step(s, s', p)
    ensures WellFormed(s') && (s'.tail != NIL ==> Joined(s', s'.tail))
    ensures |s'.pc| == |s.pc|
  {}

  /** Who has joined stays, and a PE finds its place in the queue at the tail. */
  lemma JoinedStay(s: State, s': State, p: int)
    requires WellFormed(s) && Step(s, s', p)
    ensures forall q :: Joined(s, q) ==> Joined(s', q)
    ensures forall q :: IsPe(s, q) && q != p ==> s'.pc[q] == s.pc[q]
    ensures s'.pc[p].Swapped? ==> s.pc[p].Idle? && s'.pc[p].prev == s.tail && s.tail != NIL
    ensures s'.pc[p].Waiting? ==> s.pc[p] == Swapped(s'.pc[p].prev)
    ensures s'.pc[p].Tried? ==> s'.pc[p].prev == s.tail && s.tail != NIL
  {}

  lemma PrevKept(s: State, s': State, p: int, q: int)
    requires Invariant(s) && Step(s, s', p) && IsPe(s', q)
    ensures PrevOk(s', q)
  {
    hide Step;
    JoinedStay(s, s', p);
    ShapeKept(s, s', p);
    assert IsPe(s, q) && PrevOk(s, q);
  }

  lemma NextKept(s: State, s': State, p: int, q: int)
    requires Invariant(s) && Step(s, s', p) && IsPe(s', q)
    ensures NextOk(s', q)
  {
    assert IsPe(s, q) && NextOk(s, q) && PrevOk(s, p);
  }

  /** A step moves one PE, and only in these ways. */
  predicate Moves(s: State, s': State, p: int) {
    && IsPe(s, p) && IsPe(s', p) && s'.pc == s.pc[p := s'.pc[p]]
    && (Entered(s.pc[p]) ==> Entered(s'.pc[p]))
    && (s.pc[p].Waiting? ==> s'.pc[p].Entering?)
    && (s.pc[p].Sent? || s.pc[p].Done? ==> s'.pc[p] == Done(s.pc[p].next))
    && (s'.pc[p].Leaving? ==> s.pc[p].Critical? && s'.pc[p].next == s.next[p])
    && (s'.pc[p].Sent? ==> s.pc[p].Leaving? && s'.pc[p].next == s.pc[p].next)
    && (s'.pc[p].Done? ==> s.pc[p].Sent?)
    && s'.sent == if s'.pc[p].Sent? && s'.pc[p].next != NIL then s.sent + {(p, s'.pc[p].next)} else s.sent
  }

  lemma EachMoves(s: State, s': State, p: int)
    requires WellFormed(s) && Step(s, s', p)
    ensures Moves(s, s', p)
  {}

  /** A waiting PE leaves its place only once the message has been sent. */
  lemma WaitsForMessage(s: State, s': State, p: int)
    requires Step(s, s', p) && s.pc[p].Waiting?
    ensures (s.pc[p].prev, p) in s.sent
  {}

  lemma LeavingKept(s: State, s': State, p: int, q: int)
    requires Invariant(s) && Step(s, s', p) && IsPe(s', q)
    ensures LeavingOk(s', q)
  {
    hide Step;
    EachMoves(s, s', p);
    assert IsPe(s, q) && LeavingOk(s, q) && NextOk(s, q);
    if s.pc[p].Waiting? { WaitsForMessage(s, s', p); }
    assert forall a :: (q, a) in s.sent ==> SentOk(s, q, a);
  }

  lemma MessageKept(s: State, s': State, p: int, a: int, b: int)
    requires Moves(s, s', p) && |s'.next| == |s'.pc| == |s'.lock|
    requires SentOk(s, a, b)
    ensures SentOk(s', a, b)
  {}

  lemma MessagesKept(s: State, s': State, p: int)
    requires Invariant(s) && Step(s, s', p)
    ensures forall a, b :: (a, b) in s'.sent ==> SentOk(s', a, b)
  {
    hide Step;
    EachMoves(s, s', p);
    ShapeKept(s, s', p);
    forall a, b | (a, b) in s'.sent ensures SentOk(s', a, b) {
      if (a, b) in s.sent {
        MessageKept(s, s', p, a, b);
      } else {
        assert LeavingOk(s, p);
      }
    }
  }

  /** Whoever has the token after a step had it before, is the only one to have joined, or has just been sent it. */
  lemma TokenFrom(s: State, s': State, p: int, a: int)
    requires Invariant(s) && Step(s, s', p) && Token(s', a)
    ensures Token(s, a) || (a == p && s.tail == NIL) || (Notify(s, s', p) && a == s.pc[p].next)
  {
    if IsPe(s, p) && s.pc[p].Swapped? {
      assert (s.pc[p].prev, p) in s.sent ==> SentOk(s, s.pc[p].prev, p);
    }
  }

  /** Every step keeps the invariant. */
  lemma InvariantKept(s: State, s': State, p: int)
    requires Invariant(s) && Step(s, s', p)
    ensures Invariant(s')
  {
    ShapeKept(s, s', p);
    forall q | IsPe(s', q) ensures PrevOk(s', q) && NextOk(s', q) && LeavingOk(s', q) {
      PrevKept(s, s', p, q);
      NextKept(s, s', p, q);
      LeavingKept(s, s', p, q);
    }
    MessagesKept(s, s', p);
    forall a, b | Token(s', a) && Token(s', b) ensures a == b {
      TokenFrom(s, s', p, a);
      TokenFrom(s, s', p, b);
      if Notify(s, s', p) { assert Token(s, p); }
    }
  }

  lemma {:induction false} InvariantHolds(n: nat, run: seq<State>, who: seq<int>, i: nat)
    requires Run(n, run, who) && i < |run|
    ensures Invariant(run[i])
  {
    if i == 0 {
      InvariantStarts(n);
    } else {
      InvariantHolds(n, run, who, i - 1);
      InvariantKept(run[i - 1], run[i], who[i - 1]);
    }
  }

  /** Inside: from the return of `oshmpi_lock` or of a successful `oshmpi_trylock` to the call of `oshmpi_unlock`. */
  predicate Inside(s: State, p: int) { IsPe(s, p) && s.pc[p].Critical? }

  /** At no point of any run are two PEs inside, and the right to enter is never duplicated. */
  lemma MutualExclusion(n: nat, run: seq<State>, who: seq<int>, i: nat, p: int, q: int)
    requires Run(n, run, who) && i < |run|
    ensures Inside(run[i], p) && Inside(run[i], q) ==> p == q
    ensures Token(run[i], p) && Token(run[i], q) ==> p == q
  {
    InvariantHolds(n, run, who, i);
    assert Inside(run[i], p) ==> Token(run[i], p);
    assert Inside(run[i], q) ==> Token(run[i], q);
  }

  /** The step swaps, or compares and swaps, out an empty tail. */
  predicate FindsNoTail(s: State, s': State, p: int) {
    s.tail == NIL && (SwapTail(s, s', p) || CompareAndSwap(s, s', p) || SwapAgain(s, s', p))
  }

  /** The tail is never reset. */
  lemma {:induction false} TailStays(n: nat, run: seq<State>, who: seq<int>, i: nat, j: nat)
    requires Run(n, run, who) && i <= j < |run| && run[i].tail != NIL
    ensures run[j].tail != NIL
  {
    if i < j {
      TailStays(n, run, who, i, j - 1);
      InvariantHolds(n, run, who, j - 1);
      assert Step(run[j - 1], run[j], who[j - 1]);
      ShapeKept(run[j - 1], run[j], who[j - 1]);
    }
  }

  /** At most one step of a run ever finds no tail, and that step sets it; so at most one PE enters without having been
      handed the lock. */
  lemma OneFindsNoTail(n: nat, run: seq<State>, who: seq<int>, i: nat, j: nat)
    requires Run(n, run, who) && i < |who| && j < |who|
    requires FindsNoTail(run[i], run[i + 1], who[i]) && FindsNoTail(run[j], run[j + 1], who[j])
    ensures i == j
  {
    if i < j {
      FoundNoTail(n, run, who, i);
      TailStays(n, run, who, i + 1, j);
    } else if j < i {
      FoundNoTail(n, run, who, j);
      TailStays(n, run, who, j + 1, i);
    }
  }

  lemma FoundNoTail(n: nat, run: seq<State>, who: seq<int>, i: nat)
    requires Run(n, run, who) && i < |who| && FindsNoTail(run[i], run[i + 1], who[i])
    ensures run[i + 1].tail == who[i] && who[i] != NIL
  {}

  // ----- order of entry, with oshmpi_lock only -----

  predicate PlainStep(s: State, s': State, p: int) { LockStep(s, s', p) || UnlockStep(s, s', p) }

  /** A run in which nobody calls `oshmpi_trylock`. */
  ghost predicate PlainRun(n: nat, run: seq<State>, who: seq<int>) {
    Run(n, run, who) && forall i :: 0 <= i < |who| ==> PlainStep(run[i], run[i + 1], who[i])
  }

  /** The PEs in the order of their tail swaps, among the first `m` steps. */
  function SwapOrder(run: seq<State>, who: seq<int>, m: nat): seq<int>
    requires |run| == |who| + 1 && m <= |who|
  {
    if m == 0 then []
    else if SwapTail(run[m - 1], run[m], who[m - 1]) then SwapOrder(run, who, m - 1) + [who[m - 1]]
    else SwapOrder(run, who, m - 1)
  }

  /** The PEs in the order in which they acquire the lock, among the first `m` steps. */
  function EntryOrder(run: seq<State>, who: seq<int>, m: nat): seq<int>
    requires |run| == |who| + 1 && m <= |who|
  {
    if m == 0 then []
    else if Enters(run[m - 1], run[m], who[m - 1]) then EntryOrder(run, who, m - 1) + [who[m - 1]]
    else EntryOrder(run, who, m - 1)
  }

  /** The step acquires the lock. */
  predicate Enters(s: State, s': State, p: int) {
    IsPe(s, p) && IsPe(s', p) && s'.pc[p].Entering? && !s.pc[p].Entering?
  }

  /** Which steps acquire it: the swap that finds no tail, and the probe that finds a message. */
  lemma WhoEnters(s: State, s': State, p: int)
    requires PlainStep(s, s', p)
    ensures Enters(s, s', p) <==> (SwapTail(s, s', p) && s.tail == NIL) || Probe(s, s', p)
    ensures !(SwapTail(s, s', p) && Probe(s, s', p))
  {}

  /** A PE that has read its next word has found nobody, or `q`. */
  predicate NextIs(pc: Pc, q: int) {
    pc.Leaving? || pc.Sent? || pc.Done? ==> pc.next == NIL || pc.next == q
  }

  /** How far the PE at position `i` of the order may be when the first `k` have entered. */
  ghost predicate PlaceOk(s: State, order: seq<int>, k: nat, i: nat)
    requires i < |order| && k <= |order|
  {
    && IsPe(s, order[i])
    && (i < k ==> Entered(s.pc[order[i]]))
    && (i + 1 < k ==> s.pc[order[i]] == Sent(order[i + 1]) || s.pc[order[i]] == Done(order[i + 1]))
    && (i + 1 == k ==> NextIs(s.pc[order[i]], if k < |order| then order[k] else NIL))
    && (i >= k ==> i > 0 && (s.pc[order[i]] == Swapped(order[i - 1]) || s.pc[order[i]] == Waiting(order[i - 1])))
  }

  ghost predicate InOrder(s: State, order: seq<int>, k: nat) {
    && k <= |order|
    && s.tail == (if order == [] then NIL else order[|order| - 1])
    && (forall i, j :: 0 <= i < j < |order| ==> order[i] != order[j])
    && (forall p :: IsPe(s, p) ==> (p in order <==> s.pc[p] != Idle))
    && (forall i :: 0 <= i < |order| ==> PlaceOk(s, order, k, i))
  }

  lemma OrderStarts(n: nat)
    ensures InOrder(Start(n), [], 0)
  {}

  lemma JoinKeepsOrder(s: State, s': State, p: int, order: seq<int>, k: nat)
    requires Invariant(s) && InOrder(s, order, k) && SwapTail(s, s', p)
    ensures InOrder(s', order + [p], if s.tail == NIL then k + 1 else k)
  {
    var d, k' := order + [p], if s.tail == NIL then k + 1 else k;
    if order != [] { assert PlaceOk(s, order, k, |order| - 1); }
    forall i | 0 <= i < |d| ensures PlaceOk(s', d, k', i) {
      if i < |order| { assert PlaceOk(s, order, k, i); }
    }
    forall q | IsPe(s', q) ensures q in d <==> s'.pc[q] != Idle { assert IsPe(s, q); }
  }

  /** Only the next one in order can find a message for it. */
  lemma ProbeKeepsOrder(s: State, s': State, p: int, order: seq<int>, k: nat)
    requires Invariant(s) && InOrder(s, order, k) && Probe(s, s', p)
    ensures k < |order| && order[k] == p && InOrder(s', order, k + 1)
  {
    var i :| 0 <= i < |order| && order[i] == p;
    assert PlaceOk(s, order, k, i) && PlaceOk(s, order, k, i - 1);
    assert SentOk(s, order[i - 1], p);
    var k' := k + 1;
    forall j | 0 <= j < |order| ensures PlaceOk(s', order, k', j) { assert PlaceOk(s, order, k, j); }
    forall q | IsPe(s', q) ensures q in order <==> s'.pc[q] != Idle { assert IsPe(s, q); }
  }

  /** Whom the next word of the PE inside names: the one after it in the order. */
  lemma NextInOrder(s: State, order: seq<int>, k: nat, p: int)
    requires Invariant(s) && InOrder(s, order, k) && IsPe(s, p) && s.pc[p] == Critical
    ensures 0 < k && order[k - 1] == p && (s.next[p] == NIL || (k < |order| && s.next[p] == order[k]))
  {
    var i :| 0 <= i < |order| && order[i] == p;
    assert PlaceOk(s, order, k, i);
    var q := s.next[p];
    if q != NIL {
      assert NextOk(s, p);
      assert (p, q) in s.sent ==> SentOk(s, p, q);
      var j :| 0 <= j < |order| && order[j] == q;
      assert PlaceOk(s, order, k, j);
      assert order[j - 1] == order[k - 1];
    }
  }

  lemma OtherStepsKeepOrder(s: State, s': State, p: int, order: seq<int>, k: nat)
    requires Invariant(s) && InOrder(s, order, k) && PlainStep(s, s', p) && !SwapTail(s, s', p) && !Probe(s, s', p)
    ensures InOrder(s', order, k)
  {
    assert IsPe(s, p);
    var i :| 0 <= i < |order| && order[i] == p;
    assert PlaceOk(s, order, k, i);
    if s.pc[p] == Critical { NextInOrder(s, order, k, p); }
    forall j | 0 <= j < |order| ensures PlaceOk(s', order, k, j) { assert PlaceOk(s, order, k, j); }
    forall q | IsPe(s', q) ensures q in order <==> s'.pc[q] != Idle { assert IsPe(s, q); }
  }

  lemma {:induction false} RunOrder(n: nat, run: seq<State>, who: seq<int>, m: nat) returns (k: nat)
    requires PlainRun(n, run, who) && m <= |who|
    ensures InOrder(run[m], SwapOrder(run, who, m), k) && EntryOrder(run, who, m) == SwapOrder(run, who, m)[..k]
  {
    hide Invariant, InOrder, SwapTail, Enters, PlainStep, PlainRun, Run;
    RunShape(n, run, who);
    if m == 0 {
      OrderStarts(n);
      k := 0;
    } else {
      RunStep(n, run, who, m - 1);
      k := RunOrder(n, run, who, m - 1);
      InvariantHolds(n, run, who, m - 1);
      k := NextOrder(run[m - 1], run[m], who[m - 1], SwapOrder(run, who, m - 1), k);
    }
  }

  lemma RunShape(n: nat, run: seq<State>, who: seq<int>)
    requires PlainRun(n, run, who)
    ensures |run| == |who| + 1 && run[0] == Start(n) && Run(n, run, who)
  {
    hide PlainStep, Step;
  }

  lemma RunStep(n: nat, run: seq<State>, who: seq<int>, m: nat)
    requires PlainRun(n, run, who) && m < |who|
    ensures |run| == |who| + 1 && Run(n, run, who) && PlainStep(run[m], run[m + 1], who[m])
  {
    hide PlainStep, Step;
  }

  /** What one step does to both orders. */
  lemma NextOrder(s: State, s': State, p: int, order: seq<int>, k: nat) returns (k': nat)
    requires Invariant(s) && InOrder(s, order, k) && PlainStep(s, s', p)
    ensures var order' := if SwapTail(s, s', p) then order + [p] else order;
      InOrder(s', order', k') && order'[..k'] == if Enters(s, s', p) then order[..k] + [p] else order[..k]
  {
    WhoEnters(s, s', p);
    hide Invariant, SwapTail, Probe, PlainStep, Enters, PlaceOk;
    k' := k;
    if SwapTail(s, s', p) {
      JoinKeepsOrder(s, s', p, order, k);
      NoneBefore(s, order, k);
      if s.tail == NIL { k' := k + 1; }
    } else if Probe(s, s', p) {
      ProbeKeepsOrder(s, s', p, order, k);
      k' := k + 1;
    } else {
      OtherStepsKeepOrder(s, s', p, order, k);
    }
  }

  lemma NoneBefore(s: State, order: seq<int>, k: nat)
    requires InOrder(s, order, k)
    ensures s.tail == NIL <==> order == []
  {
    if order != [] { assert PlaceOk(s, order, k, |order| - 1); }
  }

  /** With `oshmpi_lock` only, PEs enter in the order of their tail swaps: at every point those that have entered are
      the first ones of that order. */
  lemma FirstComeFirstServed(n: nat, run: seq<State>, who: seq<int>, m: nat)
    requires PlainRun(n, run, who) && m <= |who|
    ensures EntryOrder(run, who, m) <= SwapOrder(run, who, m)
  {
    var k := RunOrder(n, run, who, m);
  }

  // ----- the hand-off -----

  /** `q` waits for `p`, whose next word says so, and `p` has not read that word, or has read it and not answered yet,
      or has answered. */
  predicate Promised(s: State, p: int, q: int) {
    && IsPe(s, p) && IsPe(s, q) && s.pc[q] == Waiting(p)
    && ((s.next[p] == q && Unread(s.pc[p])) || s.pc[p] == Leaving(q) || (p, q) in s.sent)
  }

  predicate Unread(pc: Pc) { pc.Swapped? || pc.Waiting? || pc.Entering? || pc.Critical? }

  /** A PE whose link has landed before its predecessor's unlock has read it stays promised until it has entered. */
  lemma PromiseKept(s: State, s': State, x: int, p: int, q: int, order: seq<int>, k: nat)
    requires Invariant(s) && InOrder(s, order, k) && PlainStep(s, s', x) && Promised(s, p, q)
    ensures Promised(s', p, q) || (IsPe(s', q) && Entered(s'.pc[q]))
  {
    if TellPrevious(s, s', x) && s.pc[x].prev == p {
      OnePerPredecessor(s, order, k, x, q, p);
    }
  }

  predicate Behind(s: State, p: int, q: int) { IsPe(s, q) && (s.pc[q] == Swapped(p) || s.pc[q] == Waiting(p)) }

  /** No two PEs queue behind the same one. */
  lemma OnePerPredecessor(s: State, order: seq<int>, k: nat, x: int, q: int, p: int)
    requires InOrder(s, order, k) && Behind(s, p, x) && Behind(s, p, q)
    ensures x == q
  {
    var i :| 0 <= i < |order| && order[i] == x;
    var j :| 0 <= j < |order| && order[j] == q;
    assert PlaceOk(s, order, k, i) && PlaceOk(s, order, k, j);
    assert order[i - 1] == p && order[j - 1] == p;
  }

  /** So at all later points there is a pending message for it, or its predecessor has not finished. */
  lemma {:induction false} WaiterIsServed(n: nat, run: seq<State>, who: seq<int>, i: nat, j: nat, p: int, q: int)
    requires PlainRun(n, run, who) && i <= j < |run| && Promised(run[i], p, q)
    ensures IsPe(run[j], q) && (Entered(run[j].pc[q]) || Promised(run[j], p, q))
  {
    hide Invariant, InOrder, PlainStep, PlainRun, Run, SwapOrder, EntryOrder;
    RunShape(n, run, who);
    if i < j {
      RunStep(n, run, who, j - 1);
      WaiterIsServed(n, run, who, i, j - 1, p, q);
      InvariantHolds(n, run, who, j - 1);
      var k := RunOrder(n, run, who, j - 1);
      if Promised(run[j - 1], p, q) {
        PromiseKept(run[j - 1], run[j], who[j - 1], p, q, SwapOrder(run, who, j - 1), k);
      } else {
        EnteredStays(run[j - 1], run[j], who[j - 1], q);
      }
    }
  }

  lemma EnteredStays(s: State, s': State, p: int, q: int)
    requires Invariant(s) && PlainStep(s, s', p) && IsPe(s, q) && Entered(s.pc[q])
    ensures IsPe(s', q) && Entered(s'.pc[q])
  {}
}
