/** Which PEs can go on, and when all of them get the lock. */
module McsProgress {
  import opened McsLock

  /** Nothing is left to do, or only a message can help. */
  predicate Blocked(s: State, p: int)
    requires IsPe(s, p)
  {
    s.pc[p].Done? || (s.pc[p].Waiting? && (s.pc[p].prev, p) !in s.sent)
  }

  /** A PE that is not blocked has a step of the routine it is in, whatever the others do. */
  lemma CanGoOn(s: State, p: int) returns (s': State)
    requires Invariant(s) && IsPe(s, p) && !Blocked(s, p)
    ensures Step(s, s', p) && (!s.pc[p].Tried? && !s.pc[p].Winning? ==> PlainStep(s, s', p))
  {
    assert PrevOk(s, p);
    match s.pc[p]
    case Idle => s' := At(s, p, if s.tail == NIL then Entering else Swapped(s.tail)).(tail := p);
    case Swapped(v) => s' := At(s, p, Waiting(v)).(next := s.next[v := p]);
    case Waiting(_) => s' := At(s, p, Entering);
    case Tried(v) => s' := At(s, p, if s.lock[v] != 0 then Idle else Winning);
    case Winning => s' := At(s, p, Entering).(tail := p);
    case Entering => s' := At(s, p, Critical).(lock := s.lock[p := 1]);
    case Critical => s' := At(s, p, Leaving(s.next[p]));
    case Leaving(n) => s' := At(s, p, Sent(n)).(sent := if n == NIL then s.sent else s.sent + {(p, n)});
    case Sent(n) => s' := At(s, p, Done(n)).(lock := s.lock[p := NIL]);
  }

  /** A blocked PE has none. */
  lemma BlockedStays(s: State, s': State, p: int)
    requires IsPe(s, p) && Blocked(s, p)
    ensures !Step(s, s', p)
  {}

  // ----- with oshmpi_lock only -----

  /** How many steps a PE can still make at most. */
  function Left(pc: Pc): nat {
    match pc
    case Idle => 7
    case Swapped(_) => 6
    case Waiting(_) => 5
    case Entering => 4
    case Critical => 3
    case Leaving(_) => 2
    case Sent(_) => 1
    case _ => 0
  }

  function AllLeft(pc: seq<Pc>): nat { if pc == [] then 0 else Left(pc[0]) + AllLeft(pc[1..]) }

  lemma {:induction false} LeftUpdate(pc: seq<Pc>, p: nat, x: Pc)
    requires p < |pc|
    ensures AllLeft(pc[p := x]) + Left(pc[p]) == AllLeft(pc) + Left(x)
  {
    if p == 0 {
      assert pc[p := x][1..] == pc[1..];
    } else {
      assert pc[p := x][1..] == pc[1..][p - 1 := x];
      LeftUpdate(pc[1..], p - 1, x);
    }
  }

  lemma {:induction false} LeftAtFirst(n: nat)
    ensures AllLeft(AllIdle(n)) == 7 * n
  {
    if n > 0 {
      assert AllIdle(n)[1..] == AllIdle(n - 1);
      LeftAtFirst(n - 1);
    }
  }

  lemma StepUses(s: State, s': State, p: int)
    requires PlainStep(s, s', p)
    ensures AllLeft(s'.pc) < AllLeft(s.pc)
  {
    LeftUpdate(s.pc, p, s'.pc[p]);
  }

  /** No run has more than seven steps of every PE. */
  lemma {:induction false} PlainRunsEnd(n: nat, run: seq<State>, who: seq<int>, i: nat)
    requires PlainRun(n, run, who) && i < |run|
    ensures i + AllLeft(run[i].pc) <= 7 * n
  {
    hide PlainRun, PlainStep;
    RunShape(n, run, who);
    if i == 0 {
      LeftAtFirst(n);
    } else {
      PlainRunsEnd(n, run, who, i - 1);
      RunStep(n, run, who, i - 1);
      StepUses(run[i - 1], run[i], who[i - 1]);
    }
  }

  /** No PE has a step. */
  ghost predicate Over(s: State) { forall p :: IsPe(s, p) ==> Blocked(s, p) }

  lemma PlainOnly(n: nat, run: seq<State>, who: seq<int>, i: nat, p: int)
    requires PlainRun(n, run, who) && i < |run| && IsPe(run[i], p)
    ensures !run[i].pc[p].Tried? && !run[i].pc[p].Winning?
  {
    if i > 0 {
      RunStep(n, run, who, i - 1);
      InvariantHolds(n, run, who, i - 1);
      assert IsPe(run[i - 1], p);
      PlainOnly(n, run, who, i - 1, p);
    }
  }

  /** Every run goes on until no PE has a step. */
  lemma {:induction false} PlainRunsFinish(n: nat, run: seq<State>, who: seq<int>)
    returns (run': seq<State>, who': seq<int>)
    requires PlainRun(n, run, who)
    ensures PlainRun(n, run', who') && run <= run' && who <= who' && Over(run'[|run'| - 1])
    decreases AllLeft(run[|run| - 1].pc)
  {
    hide Invariant, PlainStep, Blocked, Step;
    RunShape(n, run, who);
    var i := |run| - 1;
    var s := run[i];
    if Over(s) {
      run', who' := run, who;
    } else {
      var p :| IsPe(s, p) && !Blocked(s, p);
      InvariantHolds(n, run, who, i);
      PlainOnly(n, run, who, i, p);
      var s' := CanGoOn(s, p);
      StepUses(s, s', p);
      run', who' := PlainRunsFinish(n, run + [s'], who + [p]);
    }
  }

  predicate AllDone(s: State) { forall p :: 0 <= p < |s.pc| ==> s.pc[p].Done? }

  /** Somebody has unlocked without seeing anyone behind it, and another PE has queued behind it, before or since. */
  ghost predicate HandOffLost(s: State) { exists p :: IsPe(s, p) && s.pc[p] == Done(NIL) && s.tail != p }

  /** When no PE has a step any more, all have had the lock, unless an unlock has read an empty next word and another PE
      has swapped itself in behind it, before or since: the tail still names the one that has left. */
  lemma AllServedIff(n: nat, run: seq<State>, who: seq<int>, m: nat)
    requires PlainRun(n, run, who) && m <= |who| && Over(run[m])
    ensures AllDone(run[m]) <==> !HandOffLost(run[m])
  {
    hide PlainRun, Run, Invariant, InOrder, Blocked;
    RunShape(n, run, who);
    InvariantHolds(n, run, who, m);
    var k := RunOrder(n, run, who, m);
    ServedInOrder(run[m], SwapOrder(run, who, m), k);
  }

  lemma ServedInOrder(s: State, order: seq<int>, k: nat)
    requires Invariant(s) && InOrder(s, order, k) && Over(s)
    ensures AllDone(s) <==> !HandOffLost(s)
  {
    if k < |order| {
      StuckBehind(s, order, k);
    } else {
      forall p | IsPe(s, p) ensures s.pc[p].Done? && (s.pc[p] == Done(NIL) ==> s.tail == p) {
        assert Blocked(s, p);
        var i :| 0 <= i < |order| && order[i] == p;
        assert PlaceOk(s, order, k, i);
        if i + 1 < k { assert PlaceOk(s, order, k, i + 1); }
      }
    }
  }

  /** The first one that has not entered waits for a PE that has finished without a message. */
  lemma StuckBehind(s: State, order: seq<int>, k: nat)
    requires Invariant(s) && InOrder(s, order, k) && Over(s) && k < |order|
    ensures !AllDone(s) && HandOffLost(s)
  {
    assert PlaceOk(s, order, k, k);
    var p, q := order[k - 1], order[k];
    assert PlaceOk(s, order, k, k - 1) && Blocked(s, p) && Blocked(s, q);
    assert LeavingOk(s, p);
    assert s.pc[p] == Done(NIL);
    assert s.tail == order[|order| - 1];
  }
}
