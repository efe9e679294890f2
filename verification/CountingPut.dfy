/** The counting put: a put, a flush, and an atomic add at the target, against a target that waits for a count. */
module CountingPut {

  /** How far one call of `shmemx_putmem_ct` has got. Once the put is issued its bytes may land at any time and in any
      order; the flush returns only when all of them have. */
  datatype Stage = NotIssued | Issued(landed: set<nat>) | Flushed | Counted

  /** One call: the bytes that it puts, and where in the target's memory. */
  datatype Op = Op(addr: int, bytes: seq<int>)

  datatype State = State(mem: map<int, int>, counter: int, stage: seq<Stage>)

  function AllNotIssued(n: nat): (r: seq<Stage>)
    ensures |r| == n && forall i :: 0 <= i < n ==> r[i] == NotIssued
  {
    if n == 0 then [] else [NotIssued] + AllNotIssued(n - 1)
  }

  predicate IsOp(ops: seq<Op>, s: State, i: int) { 0 <= i < |ops| && |s.stage| == |ops| }

  /** `shmem_putmem` */
  predicate Put(ops: seq<Op>, s: State, s': State, i: int) {
    IsOp(ops, s, i) && s.stage[i] == NotIssued && s' == s.(stage := s.stage[i := Issued({})])
  }

  /** Byte `j` of the data arrives. */
  predicate Land(ops: seq<Op>, s: State, s': State, i: int, j: int) {
    && IsOp(ops, s, i) && s.stage[i].Issued? && 0 <= j < |ops[i].bytes| && j !in s.stage[i].landed
    && s' == State(s.mem[ops[i].addr + j := ops[i].bytes[j]], s.counter,
                   s.stage[i := Issued(s.stage[i].landed + {j})])
  }

  predicate AllLanded(op: Op, landed: set<nat>) { forall j: nat :: j < |op.bytes| ==> j in landed }

  /** `oshmpi_remote_sync_pe`: the flush of the window returns. */
  predicate Flush(ops: seq<Op>, s: State, s': State, i: int) {
    && IsOp(ops, s, i) && s.stage[i].Issued? && AllLanded(ops[i], s.stage[i].landed)
    && s' == s.(stage := s.stage[i := Flushed])
  }

  /** `shmem_long_add(ct, 1, pe)` */
  predicate Add(ops: seq<Op>, s: State, s': State, i: int) {
    IsOp(ops, s, i) && s.stage[i] == Flushed && s' == s.(counter := s.counter + 1, stage := s.stage[i := Counted])
  }

  /** Call `i` makes a step; `j` is the byte that lands, if one does. */
  datatype Move = Move(i: int, j: int)

  predicate Step(ops: seq<Op>, s: State, s': State, v: Move) {
    Put(ops, s, s', v.i) || Land(ops, s, s', v.i, v.j) || Flush(ops, s, s', v.i) || Add(ops, s, s', v.i)
  }

  ghost predicate Run(ops: seq<Op>, first: State, run: seq<State>, who: seq<Move>) {
    && |run| == |who| + 1 && run[0] == first && first.stage == AllNotIssued(|ops|)
    && forall k :: 0 <= k < |who| ==> Step(ops, run[k], run[k + 1], who[k])
  }

  /** Byte `j` has arrived. */
  predicate HasLanded(st: Stage, j: nat) { st.Flushed? || st.Counted? || (st.Issued? && j in st.landed) }

  /** Remotely complete: all of the data has arrived. */
  predicate Complete(op: Op, st: Stage) { forall j: nat :: j < |op.bytes| && !st.NotIssued? ==> HasLanded(st, j) }

  function HowManyCounted(st: seq<Stage>): nat {
    if st == [] then 0 else HowManyCounted(st[1..]) + if st[0].Counted? then 1 else 0
  }

  /** How many of the calls that have been issued are remotely complete. */
  function HowManyComplete(ops: seq<Op>, st: seq<Stage>): nat
    requires |ops| == |st|
  {
    if st == [] then 0
    else HowManyComplete(ops[1..], st[1..]) + if !st[0].NotIssued? && Complete(ops[0], st[0]) then 1 else 0
  }

  lemma {:induction false} CountUpdate(st: seq<Stage>, i: nat, x: Stage)
    requires i < |st|
    ensures HowManyCounted(st[i := x])
      == HowManyCounted(st) - (if st[i].Counted? then 1 else 0) + (if x.Counted? then 1 else 0)
  {
    if i == 0 {
      assert st[i := x][1..] == st[1..];
    } else {
      assert st[i := x][1..] == st[1..][i - 1 := x];
      CountUpdate(st[1..], i - 1, x);
    }
  }

  lemma {:induction false} CountedComplete(ops: seq<Op>, st: seq<Stage>)
    requires |ops| == |st|
    ensures HowManyCounted(st) <= HowManyComplete(ops, st) <= |st|
  {
    if st != [] { CountedComplete(ops[1..], st[1..]); }
  }

  lemma {:induction false} NoneCounted(n: nat)
    ensures HowManyCounted(AllNotIssued(n)) == 0
  {
    if n > 0 {
      assert AllNotIssued(n)[1..] == AllNotIssued(n - 1);
      NoneCounted(n - 1);
    }
  }

  /** All of a sequence is counted when as many are as there are. */
  lemma {:induction false} AllCounted(st: seq<Stage>, i: nat)
    requires i < |st| && HowManyCounted(st) == |st|
    ensures st[i].Counted?
  {
    AtMostAll(st[1..]);
    if i > 0 { AllCounted(st[1..], i - 1); }
  }

  lemma {:induction false} AtMostAll(st: seq<Stage>)
    ensures HowManyCounted(st) <= |st|
  {
    if st != [] { AtMostAll(st[1..]); }
  }

  // ----- the counter -----

  ghost predicate Tally(ops: seq<Op>, start: int, s: State) {
    |s.stage| == |ops| && s.counter == start + HowManyCounted(s.stage)
  }

  lemma {:induction false} TallyHolds(ops: seq<Op>, first: State, run: seq<State>, who: seq<Move>, k: nat)
    requires Run(ops, first, run, who) && k < |run|
    ensures Tally(ops, first.counter, run[k])
  {
    if k == 0 {
      NoneCounted(|ops|);
    } else {
      TallyHolds(ops, first, run, who, k - 1);
      assert Step(ops, run[k - 1], run[k], who[k - 1]);
      CountUpdate(run[k - 1].stage, who[k - 1].i, run[k].stage[who[k - 1].i]);
    }
  }

  /** The counter never runs ahead of the data, whatever the calls put where. */
  lemma CounterBehindData(ops: seq<Op>, first: State, run: seq<State>, who: seq<Move>, k: nat)
    requires Run(ops, first, run, who) && k < |run|
    ensures |run[k].stage| == |ops|
    ensures first.counter <= run[k].counter <= first.counter + HowManyComplete(ops, run[k].stage)
  {
    TallyHolds(ops, first, run, who, k);
    CountedComplete(ops, run[k].stage);
  }

  // ----- the data -----

  /** Where the calls put these two bytes to the same place, they are the same. */
  predicate AgreeAt(x: Op, a: int, y: Op, b: int) {
    0 <= a < |x.bytes| && 0 <= b < |y.bytes| && x.addr + a == y.addr + b ==> x.bytes[a] == y.bytes[b]
  }

  /** Calls put the same bytes to the same place. */
  ghost predicate Agree(ops: seq<Op>) {
    forall i, a, j, b :: 0 <= i < |ops| && 0 <= j < |ops| ==> AgreeAt(ops[i], a, ops[j], b)
  }

  predicate ByteThere(op: Op, m: map<int, int>, j: int) {
    0 <= j < |op.bytes| && op.addr + j in m && m[op.addr + j] == op.bytes[j]
  }

  /** All payloads are in memory. */
  ghost predicate AllThere(ops: seq<Op>, m: map<int, int>) {
    forall i, j :: 0 <= i < |ops| && 0 <= j < |ops[i].bytes| ==> ByteThere(ops[i], m, j)
  }

  ghost predicate LandedThere(ops: seq<Op>, s: State) {
    && |s.stage| == |ops|
    && forall i, j: nat :: 0 <= i < |ops| && j < |ops[i].bytes| && HasLanded(s.stage[i], j) ==>
         ByteThere(ops[i], s.mem, j)
  }

  lemma LandedKept(ops: seq<Op>, s: State, s': State, v: Move)
    requires Agree(ops) && LandedThere(ops, s) && Step(ops, s, s', v)
    ensures LandedThere(ops, s')
  {
    forall i, j: nat | 0 <= i < |ops| && j < |ops[i].bytes| && HasLanded(s'.stage[i], j)
      ensures ByteThere(ops[i], s'.mem, j)
    {
      if !HasLanded(s.stage[i], j) {
        assert i == v.i;
      } else if Land(ops, s, s', v.i, v.j) {
        assert AgreeAt(ops[i], j, ops[v.i], v.j) && ByteThere(ops[i], s.mem, j);
      } else {
        assert ByteThere(ops[i], s.mem, j);
      }
    }
  }

  lemma {:induction false} LandedHolds(ops: seq<Op>, first: State, run: seq<State>, who: seq<Move>, k: nat)
    requires Agree(ops) && Run(ops, first, run, who) && k < |run|
    ensures LandedThere(ops, run[k])
  {
    if k > 0 {
      LandedHolds(ops, first, run, who, k - 1);
      LandedKept(ops, run[k - 1], run[k], who[k - 1]);
    }
  }

  /** `shmemx_ct_wait` for as many puts as there are returns only when `shmemx_ct_get` has read that count. From then on
      all payloads are in memory: exactly when calls that overlap agree. */
  lemma WaitSeesAll(ops: seq<Op>, first: State, run: seq<State>, who: seq<Move>, k: nat, later: nat)
    requires Run(ops, first, run, who) && k <= later < |run| && run[k].counter == first.counter + |ops|
    ensures AllThere(ops, run[later].mem) <==> Agree(ops)
  {
    if Agree(ops) {
      TallyHolds(ops, first, run, who, k);
      LandedHolds(ops, first, run, who, later);
      forall i, j | 0 <= i < |ops| && 0 <= j < |ops[i].bytes| ensures ByteThere(ops[i], run[later].mem, j) {
        AllCounted(run[k].stage, i);
        StaysCounted(ops, first, run, who, k, later, i);
        assert HasLanded(run[later].stage[i], j);
      }
    } else {
      var i, a, j, b :| 0 <= i < |ops| && 0 <= j < |ops| && !AgreeAt(ops[i], a, ops[j], b);
      assert !ByteThere(ops[i], run[later].mem, a) || !ByteThere(ops[j], run[later].mem, b);
    }
  }

  lemma {:induction false} StaysCounted(ops: seq<Op>, first: State, run: seq<State>, who: seq<Move>, k: nat, later: nat,
      i: nat)
    requires Run(ops, first, run, who) && k <= later < |run| && i < |ops|
    requires |run[k].stage| == |ops| && run[k].stage[i].Counted?
    ensures |run[later].stage| == |ops| && run[later].stage[i].Counted?
  {
    if k < later {
      StaysCounted(ops, first, run, who, k, later - 1, i);
      assert Step(ops, run[later - 1], run[later], who[later - 1]);
    }
  }

  // ----- progress -----

  /** How many bytes have not landed. */
  function Missing(landed: set<nat>, len: nat): nat {
    if len == 0 then 0 else Missing(landed, len - 1) + if len - 1 in landed then 0 else 1
  }

  lemma {:induction false} OneLess(landed: set<nat>, len: nat, j: nat)
    requires j < len && j !in landed
    ensures Missing(landed + {j}, len) + 1 == Missing(landed, len)
  {
    if j < len - 1 { OneLess(landed, len - 1, j); } else { SameBelow(landed, len - 1, j); }
  }

  lemma {:induction false} SameBelow(landed: set<nat>, len: nat, j: nat)
    requires j >= len
    ensures Missing(landed + {j}, len) == Missing(landed, len)
  {
    if len > 0 { SameBelow(landed, len - 1, j); }
  }

  /** How many steps a call can still make at most. */
  function Left(op: Op, st: Stage): nat {
    match st
    case NotIssued => Missing({}, |op.bytes|) + 3
    case Issued(landed) => Missing(landed, |op.bytes|) + 2
    case Flushed => 1
    case Counted => 0
  }

  function AllLeft(ops: seq<Op>, st: seq<Stage>): nat
    requires |ops| == |st|
  {
    if st == [] then 0 else Left(ops[0], st[0]) + AllLeft(ops[1..], st[1..])
  }

  lemma {:induction false} LeftUpdate(ops: seq<Op>, st: seq<Stage>, i: nat, x: Stage)
    requires |ops| == |st| && i < |st|
    ensures AllLeft(ops, st[i := x]) + Left(ops[i], st[i]) == AllLeft(ops, st) + Left(ops[i], x)
  {
    if i == 0 {
      assert st[i := x][1..] == st[1..];
    } else {
      assert st[i := x][1..] == st[1..][i - 1 := x];
      LeftUpdate(ops[1..], st[1..], i - 1, x);
    }
  }

  /** Every step uses up one of them. */
  lemma StepUses(ops: seq<Op>, s: State, s': State, v: Move)
    requires Step(ops, s, s', v)
    ensures |s.stage| == |s'.stage| == |ops| && AllLeft(ops, s'.stage) < AllLeft(ops, s.stage)
  {
    LeftUpdate(ops, s.stage, v.i, s'.stage[v.i]);
    if Land(ops, s, s', v.i, v.j) { OneLess(s.stage[v.i].landed, |ops[v.i].bytes|, v.j); }
  }

  /** A call that is not counted yet has a step, whatever the others do: the flush waits only for its own bytes. */
  lemma CanGoOn(ops: seq<Op>, s: State, i: nat) returns (s': State, v: Move)
    requires IsOp(ops, s, i) && s.stage[i] != Counted
    ensures Step(ops, s, s', v) && v.i == i
  {
    v := Move(i, 0);
    match s.stage[i]
    case NotIssued =>
      s' := s.(stage := s.stage[i := Issued({})]);
      assert Put(ops, s, s', i);
    case Issued(landed) =>
      if AllLanded(ops[i], landed) {
        s' := s.(stage := s.stage[i := Flushed]);
        assert Flush(ops, s, s', i);
      } else {
        var j: nat :| j < |ops[i].bytes| && j !in landed;
        v := Move(i, j);
        s' := State(s.mem[ops[i].addr + j := ops[i].bytes[j]], s.counter, s.stage[i := Issued(landed + {j})]);
        assert Land(ops, s, s', i, j);
      }
    case Flushed =>
      s' := s.(counter := s.counter + 1, stage := s.stage[i := Counted]);
      assert Add(ops, s, s', i);
  }

  lemma {:induction false} CountedAll(st: seq<Stage>)
    requires forall i :: 0 <= i < |st| ==> st[i].Counted?
    ensures HowManyCounted(st) == |st|
  {
    if st != [] { CountedAll(st[1..]); }
  }

  /** Every run goes on until the counter has the value that is waited for. */
  lemma {:induction false} RunsFinish(ops: seq<Op>, first: State, run: seq<State>, who: seq<Move>)
    returns (run': seq<State>, who': seq<Move>)
    requires Run(ops, first, run, who)
    ensures Run(ops, first, run', who') && run <= run' && who <= who'
    ensures run'[|run'| - 1].counter == first.counter + |ops|
    decreases var s := run[|run| - 1]; if |s.stage| == |ops| then AllLeft(ops, s.stage) else 0
  {
    hide Step;
    var k := |run| - 1;
    var s := run[k];
    TallyHolds(ops, first, run, who, k);
    if i :| 0 <= i < |ops| && s.stage[i] != Counted {
      var s', v := CanGoOn(ops, s, i);
      StepUses(ops, s, s', v);
      run', who' := RunsFinish(ops, first, run + [s'], who + [v]);
    } else {
      CountedAll(s.stage);
      run', who' := run, who;
    }
  }

  // ----- a run where calls do not agree -----

  /** Two calls that put different bytes to one place: both are counted, and the first payload is lost. */
  lemma OverlapLosesData() returns (ops: seq<Op>, first: State, run: seq<State>, who: seq<Move>)
    ensures Run(ops, first, run, who) && |run| == 9 && run[8].counter == first.counter + |ops|
    ensures |ops| == 2 && !ByteThere(ops[0], run[8].mem, 0)
  {
    ops := [Op(0, [1]), Op(0, [2])];
    first := State(map[], 0, [NotIssued, NotIssued]);
    assert first.stage == AllNotIssued(2);
    run := [first,
            State(map[], 0, [Issued({}), NotIssued]),
            State(map[0 := 1], 0, [Issued({0}), NotIssued]),
            State(map[0 := 1], 0, [Flushed, NotIssued]),
            State(map[0 := 1], 1, [Counted, NotIssued]),
            State(map[0 := 1], 1, [Counted, Issued({})]),
            State(map[0 := 2], 1, [Counted, Issued({0})]),
            State(map[0 := 2], 1, [Counted, Flushed]),
            State(map[0 := 2], 2, [Counted, Counted])];
    who := [Move(0, 0), Move(0, 0), Move(0, 0), Move(0, 0), Move(1, 0), Move(1, 0), Move(1, 0), Move(1, 0)];
    assert {} + {0} == {0};
    assert Put(ops, run[0], run[1], 0) && Put(ops, run[4], run[5], 1);
    assert Land(ops, run[1], run[2], 0, 0) && Land(ops, run[5], run[6], 1, 0);
    assert Flush(ops, run[2], run[3], 0) && Flush(ops, run[6], run[7], 1);
    assert Add(ops, run[3], run[4], 0) && Add(ops, run[7], run[8], 1);
  }
}
