/** Log space reservation (begin_op, log_write, end_op of log.c) as a state machine:
    any number of file-system operations run interleaved, each step being one section
    under log.lock, except the tests at the head of log_write, which run before it is taken. */
module LogReserve {
  import opened Params

  /** An outstanding operation: how many new blocks it has added to the log so far, and
      whether it stands between the tests of a log_write and its store. */
  datatype Op = Op(spent: nat, tested: bool)

  /** block is lh.block[0..lh.n). */
  datatype State = State(block: seq<int>, ops: seq<Op>, committing: bool)

  datatype Step = Begin | Test(op: nat) | Store(op: nat, b: int) | End(op: nat) | Committed

  const Init := State([], [], false)

  /** begin_op admits the operation; otherwise it sleeps. */
  predicate CanBegin(s: State) {
    !s.committing && |s.block| + (|s.ops| + 1) * MAXOPBLOCKS <= LOGSIZE
  }

  /** The two panics at the head of log_write. */
  predicate WritePanics(size: int, s: State) {
    |s.block| >= LOGSIZE || |s.block| >= size - 1 || |s.ops| < 1
  }

  /** The step can be taken: the operation exists, begin_op admits it, the tests of log_write
      pass, and no operation adds more than MAXOPBLOCKS new blocks (the promise made in
      param.h). */
  predicate Enabled(size: int, s: State, st: Step) {
    match st
    case Begin => CanBegin(s)
    case Test(op) => op < |s.ops| && !s.ops[op].tested && !WritePanics(size, s)
    case Store(op, b) => op < |s.ops| && s.ops[op].tested && (b in s.block || s.ops[op].spent < MAXOPBLOCKS)
    case End(op) => op < |s.ops| && !s.ops[op].tested
    case Committed => s.committing
  }

  function Next(s: State, st: Step): (t: State)
    requires st.Test? || st.Store? || st.End? ==> st.op < |s.ops|
  {
    match st
    case Begin => s.(ops := s.ops + [Op(0, false)])
    case Test(op) => s.(ops := s.ops[op := Op(s.ops[op].spent, true)])
    case Store(op, b) =>
      if b in s.block then s.(ops := s.ops[op := Op(s.ops[op].spent, false)])          // absorption
      else s.(block := s.block + [b], ops := s.ops[op := Op(s.ops[op].spent + 1, false)])
    case End(op) =>
      var rest := s.ops[..op] + s.ops[op + 1..];
      s.(ops := rest, committing := s.committing || rest == [])
    case Committed => s.(block := [], committing := false)
  }

  /** Operation op is outstanding and may still add a new block. */
  predicate CanSpend(s: State, op: nat) {
    op < |s.ops| && s.ops[op].spent < MAXOPBLOCKS
  }

  /** steps is a run from s to t. */
  predicate Run(size: int, s: State, steps: seq<Step>, t: State)
    decreases |steps|
  {
    if steps == [] then s == t
    else Enabled(size, s, steps[0]) && Run(size, Next(s, steps[0]), steps[1..], t)
  }

  predicate Distinct(xs: seq<int>) {
    forall i, j :: 0 <= i < j < |xs| ==> xs[i] != xs[j]
  }

  /** Budget that outstanding operations may still spend. */
  function Unused(ops: seq<Op>): (u: int) {
    if ops == [] then 0 else MAXOPBLOCKS - ops[0].spent + Unused(ops[1..])
  }

  predicate Inv(s: State) {
    && Distinct(s.block)
    && (forall i :: 0 <= i < |s.ops| ==> s.ops[i].spent <= MAXOPBLOCKS)
    && |s.block| + Unused(s.ops) <= LOGSIZE && |s.ops| * MAXOPBLOCKS <= LOGSIZE
    && (s.committing ==> s.ops == []) && (s.ops == [] && !s.committing ==> s.block == [])
  }

  lemma {:induction false} UnusedConcat(xs: seq<Op>, ys: seq<Op>)
    ensures Unused(xs + ys) == Unused(xs) + Unused(ys)
  {
    if xs == [] {
      assert xs + ys == ys;
    } else {
      assert (xs + ys)[1..] == xs[1..] + ys;
      UnusedConcat(xs[1..], ys);
    }
  }

  /** Budget split at operation op. */
  lemma UnusedAt(ops: seq<Op>, op: nat)
    requires op < |ops|
    ensures Unused(ops) == Unused(ops[..op]) + (MAXOPBLOCKS - ops[op].spent) + Unused(ops[op + 1..])
  {
    assert ops == ops[..op] + ops[op..];
    UnusedConcat(ops[..op], ops[op..]);
    assert ops[op..][1..] == ops[op + 1..];
  }

  lemma UnusedFresh()
    ensures Unused([Op(0, false)]) == MAXOPBLOCKS && Unused([]) == 0
  {
  }

  lemma UnusedSet(ops: seq<Op>, op: nat, o: Op)
    requires op < |ops|
    ensures Unused(ops[op := o]) == Unused(ops) + ops[op].spent - o.spent
  {
    var ops' := ops[op := o];
    UnusedAt(ops, op);
    UnusedAt(ops', op);
    assert ops'[..op] == ops[..op] && ops'[op + 1..] == ops[op + 1..];
  }

  lemma {:induction false} UnusedBounds(ops: seq<Op>)
    requires forall i :: 0 <= i < |ops| ==> ops[i].spent <= MAXOPBLOCKS
    ensures 0 <= Unused(ops) <= |ops| * MAXOPBLOCKS
    ensures Unused(ops) == 0 ==> forall i :: 0 <= i < |ops| ==> ops[i].spent == MAXOPBLOCKS
  {
    if ops != [] { UnusedBounds(ops[1..]); }
  }

  lemma StepKeepsInv(size: int, s: State, st: Step)
    requires Inv(s) && Enabled(size, s, st)
    ensures Inv(Next(s, st))
  {
    hide Unused;
    match st
    case Begin =>
      assert Unused([Op(0, false)]) == MAXOPBLOCKS by {
        UnusedFresh();
      }
      UnusedBounds(s.ops);
      UnusedConcat(s.ops, [Op(0, false)]);
    case Test(op) =>
      UnusedSet(s.ops, op, Op(s.ops[op].spent, true));
    case Store(op, b) =>
      UnusedSet(s.ops, op, Next(s, st).ops[op]);
    case End(op) =>
      UnusedAt(s.ops, op);
      UnusedConcat(s.ops[..op], s.ops[op + 1..]);
    case Committed =>
  }

  lemma {:induction false} RunKeepsInv(size: int, s: State, steps: seq<Step>, t: State)
    requires Inv(s) && Run(size, s, steps, t)
    ensures Inv(t)
    decreases |steps|
  {
    if steps != [] {
      StepKeepsInv(size, s, steps[0]);
      RunKeepsInv(size, Next(s, steps[0]), steps[1..], t);
    }
  }

  /** In every interleaving: the logged numbers are distinct, the log plus all unspent
      reservations fits in LOGSIZE, at most LOGSIZE / MAXOPBLOCKS operations are
      outstanding, and a commit runs alone, so end_op never finds log.committing set. When no
      operation is outstanding and no commit runs, nothing is left to commit. */
  lemma Reservation(size: int, steps: seq<Step>, t: State)
    requires Run(size, Init, steps, t)
    ensures Distinct(t.block) && |t.ops| <= LOGSIZE / MAXOPBLOCKS
    ensures |t.block| <= |t.block| + Unused(t.ops) <= LOGSIZE
    ensures t.committing ==> t.ops == []
    ensures t.ops == [] && !t.committing ==> t.block == []
    ensures forall op :: 0 <= op < |t.ops| ==> !t.committing && t.ops[op].spent <= MAXOPBLOCKS
  {
    RunKeepsInv(size, Init, steps, t);
    UnusedBounds(t.ops);
  }

  /** Although the tests run before the lock is taken, no store goes past the LOGSIZE entries
      of lh.block, whatever the other operations did in between. */
  lemma StoreInBounds(size: int, steps: seq<Step>, t: State, op: nat, b: int)
    requires Run(size, Init, steps, t) && Enabled(size, t, Store(op, b))
    ensures b !in t.block ==> |t.block| < LOGSIZE
  {
    RunKeepsInv(size, Init, steps, t);
    RoomToStore(t, op, b);
  }

  lemma RoomToStore(s: State, op: nat, b: int)
    requires Inv(s) && op < |s.ops| && (b in s.block || s.ops[op].spent < MAXOPBLOCKS)
    ensures b !in s.block ==> |s.block| < LOGSIZE
  {
    UnusedAt(s.ops, op);
    UnusedBounds(s.ops[..op]);
    UnusedBounds(s.ops[op + 1..]);
  }

  /** With a log larger than LOGSIZE, in every reachable state log_write panics on an
      outstanding operation exactly when the log holds LOGSIZE blocks; then every
      outstanding operation has spent its whole budget, so only a write that would be
      absorbed can hit the panic. */
  lemma WritePanicsExactly(size: int, steps: seq<Step>, t: State, op: nat)
    requires size > LOGSIZE && Run(size, Init, steps, t) && op < |t.ops|
    ensures WritePanics(size, t) <==> |t.block| == LOGSIZE
    ensures WritePanics(size, t) ==> t.ops[op].spent == MAXOPBLOCKS
  {
    Reservation(size, steps, t);
    UnusedBounds(t.ops);
  }

  /** The operation that logs block k when three of them fill the log. */
  function Filler(k: nat): nat { if k < 10 then 0 else if k < 19 then 1 else if k < 29 then 2 else 1 }

  /** k writes by three operations; two of them have budget left until the last two writes. */
  function Filled(k: nat): (s: State)
    requires k <= LOGSIZE
  {
    State(seq(k, i => i),
          [Op(if k < 10 then k else 10, false),
           Op(if k < 10 then 0 else if k < 19 then k - 10 else if k < 30 then 9 else 10, false),
           Op(if k < 19 then 0 else if k < 29 then k - 19 else 10, false)], false)
  }

  function Filling(k: nat): (steps: seq<Step>)
    requires k <= LOGSIZE
  {
    if k == 0 then [] else Filling(k - 1) + [Test(Filler(k - 1)), Store(Filler(k - 1), k - 1)]
  }

  lemma {:induction false} RunConcat(size: int, s: State, us: seq<Step>, m: State, vs: seq<Step>, t: State)
    requires Run(size, s, us, m) && Run(size, m, vs, t)
    ensures Run(size, s, us + vs, t)
    decreases |us|
  {
    if us == [] {
      assert us + vs == vs;
    } else {
      assert (us + vs)[1..] == us[1..] + vs;
      RunConcat(size, Next(s, us[0]), us[1..], m, vs, t);
    }
  }

  lemma RunTwo(size: int, s: State, a: Step, b: Step, t: State)
    requires Enabled(size, s, a) && Enabled(size, Next(s, a), b) && Next(Next(s, a), b) == t
    ensures Run(size, s, [a, b], t)
  {
    assert [a, b][1..] == [b] && [b][1..] == [];
    assert Run(size, t, [], t);
    assert Run(size, Next(s, a), [b], t);
  }

  lemma FillStep(size: int, k: nat)
    requires 0 < k <= LOGSIZE && k <= size - 1
    ensures var s, op := Filled(k - 1), Filler(k - 1);
      && Enabled(size, s, Test(op)) && Enabled(size, Next(s, Test(op)), Store(op, k - 1))
      && Next(Next(s, Test(op)), Store(op, k - 1)) == Filled(k)
  {
    var s, op := Filled(k - 1), Filler(k - 1);
    var t := Next(s, Test(op));
    assert k - 1 !in s.block;
    assert seq(k, i => i) == s.block + [k - 1];
    assert Next(t, Store(op, k - 1)).ops == Filled(k).ops;
  }

  lemma {:induction false} FillingRuns(size: int, k: nat)
    requires k <= LOGSIZE && k <= size - 1
    ensures Run(size, Filled(0), Filling(k), Filled(k))
  {
    if k == 0 {
      assert Run(size, Filled(0), [], Filled(0));
    }
    hide Run, Filled, Enabled, Next, Filler;
    if k > 0 {
      FillingRuns(size, k - 1);
      var op := Filler(k - 1);
      var s := Filled(k - 1);
      FillStep(size, k);
      RunTwo(size, s, Test(op), Store(op, k - 1), Filled(k));
      RunConcat(size, Filled(0), Filling(k - 1), s, [Test(op), Store(op, k - 1)], Filled(k));
    }
  }

  function Opening(): (steps: seq<Step>) { [Begin, Begin, Begin] }

  lemma OpeningRuns(size: int)
    ensures Run(size, Init, Opening(), Filled(0))
  {
    var s1 := Next(Init, Begin);
    var s2 := Next(s1, Begin);
    assert Next(s2, Begin) == Filled(0);
    assert Run(size, Filled(0), [], Filled(0));
    assert Opening()[1..][1..][1..] == [];
    assert Run(size, s2, Opening()[1..][1..], Filled(0));
    assert Run(size, s1, Opening()[1..], Filled(0));
  }

  /** "An admitted operation within its budget never panics in log_write" is false for
      the log that mkfs lays out (nlog == LOGSIZE): three admitted operations reach 29
      logged blocks, and the one with budget left panics on its next new block. */
  lemma MkfsLogTooSmall()
    ensures exists steps, t ::
      Run(LOGSIZE, Init, steps, t) && CanSpend(t, 1) && WritePanics(LOGSIZE, t)
  {
    OpeningRuns(LOGSIZE);
    FillingRuns(LOGSIZE, LOGSIZE - 1);
    RunConcat(LOGSIZE, Init, Opening(), Filled(0), Filling(LOGSIZE - 1), Filled(LOGSIZE - 1));
    assert Run(LOGSIZE, Init, Opening() + Filling(LOGSIZE - 1), Filled(LOGSIZE - 1));
  }

  /** Even with a larger log, re-logging a block that is already logged can panic. */
  lemma AbsorptionCanPanic(size: int)
    requires size > LOGSIZE
    ensures exists steps, t, b ::
      Run(size, Init, steps, t) && |t.ops| == 3 && b in t.block && WritePanics(size, t)
  {
    OpeningRuns(size);
    FillingRuns(size, LOGSIZE);
    RunConcat(size, Init, Opening(), Filled(0), Filling(LOGSIZE), Filled(LOGSIZE));
    assert Run(size, Init, Opening() + Filling(LOGSIZE), Filled(LOGSIZE));
    assert Filled(LOGSIZE).block[0] in Filled(LOGSIZE).block;
  }

  /** Every admitted new block fits exactly when the log area holds LOGSIZE data blocks
      behind its header: the sizes for which no run reaches the panic with budget left. */
  lemma BudgetSufficesIff(size: int)
    requires size >= 1
    ensures size > LOGSIZE ==> forall steps, t, op: nat ::
      Run(size, Init, steps, t) && CanSpend(t, op) ==> !WritePanics(size, t)
    ensures size <= LOGSIZE ==> exists steps, t, op: nat ::
      Run(size, Init, steps, t) && CanSpend(t, op) && WritePanics(size, t)
  {
    hide Run;
    if size > LOGSIZE {
      forall steps, t, op: nat | Run(size, Init, steps, t) && CanSpend(t, op)
        ensures !WritePanics(size, t)
      {
        WritePanicsExactly(size, steps, t, op);
      }
    } else {
      OpeningRuns(size);
      FillingRuns(size, size - 1);
      RunConcat(size, Init, Opening(), Filled(0), Filling(size - 1), Filled(size - 1));
      assert Run(size, Init, Opening() + Filling(size - 1), Filled(size - 1));
      assert CanSpend(Filled(size - 1), 1) && WritePanics(size, Filled(size - 1));
    }
  }

  /** Two operations that both pass the tests before either stores. */
  lemma OverrunRuns(size: int)
    requires 2 <= size <= LOGSIZE
    ensures exists steps, t :: Run(size, Init, steps, t) && |t.block| == size
  {
    hide Run, Filled, Enabled, Next;
    var k := size - 2;
    var s := Filled(k);
    OpeningRuns(size);
    FillingRuns(size, k);
    RunConcat(size, Init, Opening(), Filled(0), Filling(k), s);
    BothTest(size);
    var s2 := Next(Next(s, Test(1)), Test(2));
    var t := Next(Next(s2, Store(1, k)), Store(2, k + 1));
    RunTwo(size, s, Test(1), Test(2), s2);
    RunTwo(size, s2, Store(1, k), Store(2, k + 1), t);
    RunConcat(size, s, [Test(1), Test(2)], s2, [Store(1, k), Store(2, k + 1)], t);
    RunConcat(size, Init, Opening() + Filling(k), s, [Test(1), Test(2)] + [Store(1, k), Store(2, k + 1)], t);
  }

  lemma BothTest(size: int)
    requires 2 <= size <= LOGSIZE
    ensures var k := size - 2; var s := Filled(k);
      && Enabled(size, s, Test(1)) && Enabled(size, Next(s, Test(1)), Test(2))
      && var s2 := Next(Next(s, Test(1)), Test(2));
      && Enabled(size, s2, Store(1, k)) && Enabled(size, Next(s2, Store(1, k)), Store(2, k + 1))
      && |Next(Next(s2, Store(1, k)), Store(2, k + 1)).block| == size
  {
    var k := size - 2;
    var s2 := Next(Next(Filled(k), Test(1)), Test(2));
    assert s2.block == seq(k, i => i);
    assert k !in s2.block && k + 1 !in s2.block;
  }

  /** The logged blocks always fit behind the header of the log area exactly if the area holds
      LOGSIZE of them, or none at all. In between the test for that is passed by two
      operations at once, because it is made before the lock is taken. */
  lemma AreaSufficesIff(size: int)
    requires size >= 1
    ensures (forall steps, t :: Run(size, Init, steps, t) ==> |t.block| <= size - 1) <==> size > LOGSIZE || size == 1
  {
    if size > LOGSIZE {
      forall steps, t | Run(size, Init, steps, t) ensures |t.block| <= size - 1 {
        Reservation(size, steps, t);
      }
    } else if size == 1 {
      forall steps, t | Run(1, Init, steps, t) ensures |t.block| <= 0 {
        NoRoom(Init, steps, t);
      }
    } else {
      OverrunRuns(size);
    }
  }

  /** In a log area of one block every log_write panics. */
  lemma {:induction false} NoRoom(s: State, steps: seq<Step>, t: State)
    requires s.block == [] && (forall i :: 0 <= i < |s.ops| ==> !s.ops[i].tested) && Run(1, s, steps, t)
    ensures t.block == []
    decreases |steps|
  {
    if steps != [] {
      NoRoom(Next(s, steps[0]), steps[1..], t);
    }
  }
}
