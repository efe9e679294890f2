/** The ticket loop that hands blocks of work to PEs: a shared counter, and on every PE the next ticket it holds and
    the number of blocks it has looked at. The blocks of all phases are numbered in one sequence. */
module Tickets {

  datatype Pe =
    | Starting                            // before its first fetch-and-add
    | Looking(nextP: nat, countP: nat)    // at the head of a loop iteration
    | Fetching(countP: nat)               // has executed block `countP`, about to fetch its next ticket

  /** `log` records which PE executed which block, in the order in which that happened. */
  datatype State = State(counter: nat, pe: seq<Pe>, log: seq<(nat, int)>)

  predicate IsPe(s: State, p: int) { 0 <= p < |s.pe| }

  function AllStarting(n: nat): (r: seq<Pe>)
    ensures |r| == n && forall i :: 0 <= i < n ==> r[i] == Starting
  {
    if n == 0 then [] else [Starting] + AllStarting(n - 1)
  }

  function Start(n: nat): State { State(0, AllStarting(n), []) }

  /** `next_p = shmem_int_fadd(&gcounter, 1, ROOT)` before the first loop. */
  predicate FirstFetch(s: State, s': State, p: int) {
    IsPe(s, p) && s.pe[p] == Starting && s' == State(s.counter + 1, s.pe[p := Looking(s.counter, 0)], s.log)
  }

  /** The block is another PE's: only `count_p` moves on. */
  predicate Skip(s: State, s': State, total: nat, p: int) {
    IsPe(s, p) && s.pe[p].Looking? && s.pe[p].countP < total && s.pe[p].nextP != s.pe[p].countP
    && s' == s.(pe := s.pe[p := Looking(s.pe[p].nextP, s.pe[p].countP + 1)])
  }

  /** The block is this PE's. */
  predicate Work(s: State, s': State, total: nat, p: int) {
    IsPe(s, p) && s.pe[p].Looking? && s.pe[p].countP < total && s.pe[p].nextP == s.pe[p].countP
    && s' == s.(pe := s.pe[p := Fetching(s.pe[p].countP)], log := s.log + [(s.pe[p].countP, p)])
  }

  /** The fetch-and-add after a block, and `count_p++`. */
  predicate Fetch(s: State, s': State, p: int) {
    IsPe(s, p) && s.pe[p].Fetching?
    && s' == State(s.counter + 1, s.pe[p := Looking(s.counter, s.pe[p].countP + 1)], s.log)
  }

  predicate Step(s: State, s': State, total: nat, p: int) {
    FirstFetch(s, s', p) || Skip(s, s', total, p) || Work(s, s', total, p) || Fetch(s, s', p)
  }

  ghost predicate Run(n: nat, total: nat, run: seq<State>, who: seq<int>) {
    && |run| == |who| + 1 && run[0] == Start(n)
    && forall i :: 0 <= i < |who| ==> Step(run[i], run[i + 1], total, who[i])
  }

  predicate Holds(s: State, p: int, t: nat) { IsPe(s, p) && s.pe[p].Looking? && s.pe[p].nextP == t }
  predicate Logged(s: State, i: int, t: nat) { 0 <= i < |s.log| && s.log[i].0 == t }

  /** Some PE has executed block `t`. */
  ghost predicate Executed(s: State, t: nat) { exists i :: Logged(s, i, t) }

  /** Ticket `t` is held or has been used. */
  ghost predicate Accounted(s: State, t: nat) { (exists p :: Holds(s, p, t)) || Executed(s, t) }

  ghost predicate PeOk(s: State, total: nat, p: int)
    requires IsPe(s, p)
  {
    match s.pe[p]
    case Starting => true
    case Looking(next, count) => count <= next < s.counter && count <= total
    case Fetching(count) => count < s.counter && count < total
  }

  /** Tickets below the counter are held by one PE or have been executed once, and not both. */
  ghost predicate Invariant(s: State, n: nat, total: nat) {
    && |s.pe| == n
    && (forall p :: IsPe(s, p) ==> PeOk(s, total, p))
    && (forall p, q, t: nat :: Holds(s, p, t) && Holds(s, q, t) ==> p == q)
    && (forall i, t: nat :: Logged(s, i, t) ==>
          t < s.counter && t < total && IsPe(s, s.log[i].1) && forall p :: !Holds(s, p, t))
    && (forall i, j, t: nat :: Logged(s, i, t) && Logged(s, j, t) ==> i == j)
    && (forall t: nat :: t < s.counter ==> Accounted(s, t))
  }

  lemma InvariantStarts(n: nat, total: nat)
    ensures Invariant(Start(n), n, total)
  {}

  /** What a PE held and the log contained, it holds and contains after a step, but for a ticket that was used or
      fetched. */
  lemma TicketsAfter(s: State, s': State, total: nat, x: int, t: nat)
    requires Step(s, s', total, x) && IsPe(s, x)
    ensures forall p :: p != x ==> (Holds(s', p, t) <==> Holds(s, p, t))
    ensures forall i :: i < |s.log| ==> (Logged(s', i, t) <==> Logged(s, i, t))
    ensures |s'.log| == if Work(s, s', total, x) then |s.log| + 1 else |s.log|
    ensures Work(s, s', total, x) ==> (Logged(s', |s.log|, t) <==> Holds(s, x, t)) && !Holds(s', x, t)
    ensures Skip(s, s', total, x) ==> (Holds(s', x, t) <==> Holds(s, x, t))
    ensures FirstFetch(s, s', x) || Fetch(s, s', x) ==> !Holds(s, x, t) && (Holds(s', x, t) <==> t == s.counter)
  {}

  lemma InvariantKept(s: State, s': State, n: nat, total: nat, x: int)
    requires Invariant(s, n, total) && Step(s, s', total, x)
    ensures Invariant(s', n, total)
  {
    forall p | IsPe(s', p) ensures PeOk(s', total, p) { assert IsPe(s, p) && PeOk(s, total, p); }
    assert IsPe(s, x) && PeOk(s, total, x);
    forall p, q, t: nat | Holds(s', p, t) && Holds(s', q, t) ensures p == q {
      TicketsAfter(s, s', total, x, t);
      HeldBelow(s, n, total, p, t);
      HeldBelow(s, n, total, q, t);
    }
    forall i, t: nat | Logged(s', i, t)
      ensures t < s'.counter && t < total && IsPe(s', s'.log[i].1) && forall p :: !Holds(s', p, t)
    {
      TicketsAfter(s, s', total, x, t);
    }
    forall i, j, t: nat | Logged(s', i, t) && Logged(s', j, t) ensures i == j { TicketsAfter(s, s', total, x, t); }
    forall t: nat | t < s'.counter ensures Accounted(s', t) {
      TicketsAfter(s, s', total, x, t);
      TicketSomewhere(s, s', n, total, x, t);
    }
  }

  lemma HeldBelow(s: State, n: nat, total: nat, p: int, t: nat)
    requires Invariant(s, n, total)
    ensures Holds(s, p, t) ==> t < s.counter
  {
    if Holds(s, p, t) { assert PeOk(s, total, p); }
  }

  lemma TicketSomewhere(s: State, s': State, n: nat, total: nat, x: int, t: nat)
    requires Invariant(s, n, total) && Step(s, s', total, x) && t < s'.counter
    ensures Accounted(s', t)
  {
    TicketsAfter(s, s', total, x, t);
    if t == s.counter {
      assert Holds(s', x, t);
    } else if Executed(s, t) {
      var i :| Logged(s, i, t);
      assert Logged(s', i, t);
    } else {
      assert Accounted(s, t);
      var p :| Holds(s, p, t);
      assert Holds(s', p, t) || Logged(s', |s.log|, t);
    }
  }

  lemma {:induction false} InvariantHolds(n: nat, total: nat, run: seq<State>, who: seq<int>, i: nat)
    requires Run(n, total, run, who) && i < |run|
    ensures Invariant(run[i], n, total)
  {
    hide Invariant, Step;
    if i == 0 {
      InvariantStarts(n, total);
    } else {
      InvariantHolds(n, total, run, who, i - 1);
      InvariantKept(run[i - 1], run[i], n, total, who[i - 1]);
    }
  }

  /** A PE has finished when it has looked at all blocks. */
  predicate Finished(s: State, total: nat, p: int) { IsPe(s, p) && s.pe[p].Looking? && s.pe[p].countP == total }

  /** In every run, at every point, no block has been executed twice; and once all PEs have finished, every block of
      every phase has been executed, by exactly one PE. */
  lemma EachBlockOnce(n: nat, total: nat, run: seq<State>, who: seq<int>, i: nat)
    requires Run(n, total, run, who) && i < |run| && n > 0
    ensures forall j, k, t: nat :: Logged(run[i], j, t) && Logged(run[i], k, t) ==> j == k
    ensures (forall p :: 0 <= p < n ==> Finished(run[i], total, p)) ==>
      forall t: nat :: t < total ==> Executed(run[i], t)
  {
    InvariantHolds(n, total, run, who, i);
    var s := run[i];
    if forall p :: 0 <= p < n ==> Finished(s, total, p) {
      assert Finished(s, total, 0) && PeOk(s, total, 0);
      forall t: nat | t < total ensures Executed(s, t) {
        forall p ensures !Holds(s, p, t) {
          if IsPe(s, p) { assert Finished(s, total, p) && PeOk(s, total, p); }
        }
        assert Accounted(s, t);
      }
    }
  }

  // ----- progress -----

  /** How many steps a PE can still make at most. */
  function Left(pe: Pe, total: nat): nat {
    match pe
    case Starting => 2 * total + 1
    case Looking(_, count) => if count <= total then 2 * (total - count) else 0
    case Fetching(count) => if count < total then 2 * (total - count) - 1 else 0
  }

  function AllLeft(pe: seq<Pe>, total: nat): nat {
    if pe == [] then 0 else Left(pe[0], total) + AllLeft(pe[1..], total)
  }

  lemma {:induction false} LeftUpdate(pe: seq<Pe>, total: nat, p: nat, x: Pe)
    requires p < |pe|
    ensures AllLeft(pe[p := x], total) + Left(pe[p], total) == AllLeft(pe, total) + Left(x, total)
  {
    if p == 0 {
      assert pe[p := x][1..] == pe[1..];
    } else {
      assert pe[p := x][1..] == pe[1..][p - 1 := x];
      LeftUpdate(pe[1..], total, p - 1, x);
    }
  }

  lemma {:induction false} LeftAtFirst(n: nat, total: nat)
    ensures AllLeft(AllStarting(n), total) == n * (2 * total + 1)
  {
    if n > 0 {
      assert AllStarting(n)[1..] == AllStarting(n - 1);
      LeftAtFirst(n - 1, total);
      assert n * (2 * total + 1) == (n - 1) * (2 * total + 1) + (2 * total + 1);
    }
  }

  /** Every step uses up at least one of them. */
  lemma StepUses(s: State, s': State, n: nat, total: nat, p: int)
    requires Invariant(s, n, total) && Step(s, s', total, p)
    ensures AllLeft(s'.pe, total) < AllLeft(s.pe, total)
  {
    assert IsPe(s, p) && PeOk(s, total, p);
    LeftUpdate(s.pe, total, p, s'.pe[p]);
  }

  /** A PE that has not finished has a step, whatever the others do. */
  lemma CanGoOn(s: State, n: nat, total: nat, p: int) returns (s': State)
    requires Invariant(s, n, total) && IsPe(s, p) && !Finished(s, total, p)
    ensures Step(s, s', total, p)
  {
    assert PeOk(s, total, p);
    match s.pe[p]
    case Starting =>
      s' := State(s.counter + 1, s.pe[p := Looking(s.counter, 0)], s.log);
      assert FirstFetch(s, s', p);
    case Looking(next, count) =>
      if next == count {
        s' := s.(pe := s.pe[p := Fetching(count)], log := s.log + [(count, p)]);
        assert Work(s, s', total, p);
      } else {
        s' := s.(pe := s.pe[p := Looking(next, count + 1)]);
        assert Skip(s, s', total, p);
      }
    case Fetching(count) =>
      s' := State(s.counter + 1, s.pe[p := Looking(s.counter, count + 1)], s.log);
      assert Fetch(s, s', p);
  }

  /** No run is longer than that many steps. */
  lemma {:induction false} RunsEnd(n: nat, total: nat, run: seq<State>, who: seq<int>, i: nat)
    requires Run(n, total, run, who) && i < |run|
    ensures i + AllLeft(run[i].pe, total) <= n * (2 * total + 1)
  {
    hide Invariant, Step;
    if i == 0 {
      LeftAtFirst(n, total);
    } else {
      RunsEnd(n, total, run, who, i - 1);
      InvariantHolds(n, total, run, who, i - 1);
      StepUses(run[i - 1], run[i], n, total, who[i - 1]);
    }
  }

  ghost predicate AllFinished(s: State, n: nat, total: nat) { forall p :: 0 <= p < n ==> Finished(s, total, p) }

  /** Every run goes on until all PEs have finished, and then every block has been executed exactly once. */
  lemma {:induction false} RunsFinish(n: nat, total: nat, run: seq<State>, who: seq<int>)
    returns (run': seq<State>, who': seq<int>)
    requires Run(n, total, run, who) && n > 0
    ensures Run(n, total, run', who') && run <= run' && who <= who'
    ensures var s := run'[|run'| - 1];
      && AllFinished(s, n, total) && (forall t: nat :: t < total ==> Executed(s, t))
      && forall j, k, t: nat :: Logged(s, j, t) && Logged(s, k, t) ==> j == k
    decreases AllLeft(run[|run| - 1].pe, total)
  {
    hide Invariant, Step, Finished, Executed, Logged;
    var i := |run| - 1;
    var s := run[i];
    if AllFinished(s, n, total) {
      run', who' := run, who;
      EachBlockOnce(n, total, run, who, i);
    } else {
      var p :| 0 <= p < n && !Finished(s, total, p);
      InvariantHolds(n, total, run, who, i);
      AllThere(s, n, total, p);
      var s' := CanGoOn(s, n, total, p);
      StepUses(s, s', n, total, p);
      run', who' := RunsFinish(n, total, run + [s'], who + [p]);
    }
  }

  lemma AllThere(s: State, n: nat, total: nat, p: int)
    requires Invariant(s, n, total) && 0 <= p < n
    ensures IsPe(s, p)
  {}

  /** Block `j` of phase `k` has its own number. */
  function BlockNumber(blocks: nat, k: nat, j: nat): nat { k * blocks + j }

  lemma BlockNumbers(phases: nat, blocks: nat, k: nat, j: nat, k': nat, j': nat)
    requires j < blocks && j' < blocks && k < phases && k' < phases
    ensures BlockNumber(blocks, k, j) < phases * blocks
    ensures BlockNumber(blocks, k, j) == BlockNumber(blocks, k', j') ==> k == k' && j == j'
  {
    Below(k + 1, phases, blocks);
    if k < k' { Below(k + 1, k', blocks); }
    if k' < k { Below(k' + 1, k, blocks); }
  }

  lemma Below(a: nat, b: nat, m: nat)
    requires a <= b
    ensures a * m <= b * m
  {}
}
