/**
 * Properties of whole runs of the interpreter loop.
 *
 * The first group holds for the loop over any closed turn function (and so
 * for `Run` and `After`, which are `Loop` and `Reach` over `Turns(p)`): a run
 * ends exactly with the answer of the first turn that halts, extra fuel never
 * changes an answer, and turns compose. The second group is about the turns
 * of a program: what its answers can be, that it accepts only on exhausted
 * input in a final state, that the input tape is read-only and its head never
 * moves back, that a memory cell no turn wrote reads empty, and the two edge
 * cases of a first turn (empty input, missing first transition).
 */
module SimulatorProperties {
  import opened Tapes
  import opened Simulator

  /** The loop reaches turn `n` and that turn halts with `a`. */
  ghost predicate HaltsAt(turn: Config --> StepResult, c: Config, n: nat, a: Answer)
    requires Closed(turn) && ValidConfig(c)
  {
    var d := Reach(turn, c, n);
    d.Some? && turn(d.value) == Halt(a)
  }

  /** Running from `c` is running from wherever `n` turns lead, with `n` less fuel. */
  lemma {:induction false} LoopFollowsReach(turn: Config --> StepResult, c: Config, n: nat, fuel: nat, d: Config)
    requires Closed(turn) && ValidConfig(c)
    requires n <= fuel && Reach(turn, c, n) == Some(d)
    ensures ValidConfig(d) && Loop(turn, c, fuel) == Loop(turn, d, fuel - n)
    decreases n
  {
    if n > 0 {
      LoopFollowsReach(turn, turn(c).next, n - 1, fuel - 1, d);
    }
  }

  /** Reaching turn `m + k` passes through turn `m`, and goes on from there for `k` turns. */
  lemma {:induction false} ReachComposes(turn: Config --> StepResult, c: Config, m: nat, k: nat)
    requires Closed(turn) && ValidConfig(c) && Reach(turn, c, m + k).Some?
    ensures Reach(turn, c, m).Some?
    ensures Reach(turn, c, m + k) == Reach(turn, Reach(turn, c, m).value, k)
    decreases m
  {
    if m > 0 {
      ReachComposes(turn, turn(c).next, m - 1, k);
    }
  }

  /** An answer of a run comes from a turn it reaches that halts with it. */
  lemma {:induction false} LoopHaltsAt(turn: Config --> StepResult, c: Config, fuel: nat, a: Answer) returns (n: nat)
    requires Closed(turn) && ValidConfig(c) && Loop(turn, c, fuel) == Some(a)
    ensures n < fuel && HaltsAt(turn, c, n, a)
    decreases fuel
  {
    match turn(c)
    case Halt(_) =>
      n := 0;
    case Continue(next) =>
      var m := LoopHaltsAt(turn, next, fuel - 1, a);
      n := m + 1;
  }

  /** A turn that halts, reached within the fuel, gives the run its answer. */
  lemma {:induction false} HaltsAtLoop(turn: Config --> StepResult, c: Config, n: nat, fuel: nat, a: Answer)
    requires Closed(turn) && ValidConfig(c) && n < fuel && HaltsAt(turn, c, n, a)
    ensures Loop(turn, c, fuel) == Some(a)
    decreases n
  {
    if n > 0 {
      HaltsAtLoop(turn, turn(c).next, n - 1, fuel - 1, a);
    }
  }

  /** A run answers `a` exactly when some turn it reaches within the fuel halts with `a`. */
  lemma LoopAnswersIffHalts(turn: Config --> StepResult, c: Config, fuel: nat, a: Answer)
    requires Closed(turn) && ValidConfig(c)
    ensures Loop(turn, c, fuel) == Some(a) <==> exists n: nat :: n < fuel && HaltsAt(turn, c, n, a)
  {
    if Loop(turn, c, fuel) == Some(a) {
      var n := LoopHaltsAt(turn, c, fuel, a);
    }
    if exists n: nat :: n < fuel && HaltsAt(turn, c, n, a) {
      var n: nat :| n < fuel && HaltsAt(turn, c, n, a);
      HaltsAtLoop(turn, c, n, fuel, a);
    }
  }

  /** Fuel is only a bound: a run that answers keeps its answer with more fuel. */
  lemma {:induction false} MoreFuelSameAnswer(turn: Config --> StepResult, c: Config, fuel: nat, more: nat, a: Answer)
    requires Closed(turn) && ValidConfig(c)
    requires Loop(turn, c, fuel) == Some(a) && fuel <= more
    ensures Loop(turn, c, more) == Some(a)
    decreases fuel
  {
    match turn(c)
    case Halt(_) =>
    case Continue(next) => MoreFuelSameAnswer(turn, next, fuel - 1, more - 1, a);
  }

  /**
   * What a run of a program can answer: success only in a final state, and
   * failure only with state 0 and a `NotFinalState` or `UndefinedTransition`
   * error (never `NoSuchFinalState`, which only `Interpret` reports).
   */
  lemma RunAnswers(p: ProgramValue, c: Config, fuel: nat, a: Answer)
    requires ValidConfig(c) && Run(p, c, fuel) == Some(a)
    ensures a.err == None ==> a.state in p.finalStates
    ensures a.err != None ==> a.state == 0 && (a.err.value.NotFinalState? || a.err.value.UndefinedTransition?)
  {
    var n := LoopHaltsAt(Turns(p), c, fuel, a);
    var d := After(p, c, n).value;
    assert Step(p, d) == Halt(a);
  }

  /** After `n` turns the input is exhausted and the state `q` is final. */
  predicate AcceptsAt(p: ProgramValue, c: Config, n: nat, q: StateId)
    requires ValidConfig(c)
  {
    var d := After(p, c, n);
    d.Some? && Read(d.value.input) == p.emptySymbol && d.value.state == q && q in p.finalStates
  }

  /**
   * A run succeeds with `q` exactly when some turn it reaches within the fuel
   * finds the input exhausted in the final state `q`.
   */
  lemma AcceptsIffExhaustedInFinal(p: ProgramValue, c: Config, fuel: nat, q: StateId)
    requires ValidConfig(c)
    ensures Run(p, c, fuel) == Some(Answer(q, None)) <==> exists n: nat :: n < fuel && AcceptsAt(p, c, n, q)
  {
    LoopAnswersIffHalts(Turns(p), c, fuel, Answer(q, None));
    forall n: nat | n < fuel
      ensures HaltsAt(Turns(p), c, n, Answer(q, None)) <==> AcceptsAt(p, c, n, q)
    {
    }
  }

  /**
   * The input tape is read-only: over any number of turns no cell of it
   * changes, its origin stays put and its head never moves left. Since this
   * holds from every configuration, the head's position grows with the turn
   * count along any run.
   */
  lemma {:induction false} InputReadOnly(p: ProgramValue, c: Config, n: nat)
    requires ValidConfig(c) && After(p, c, n).Some?
    ensures var d := After(p, c, n).value;
            && Head(d.input) >= Head(c.input)
            && d.input.zeroPos == c.input.zeroPos
            && forall q :: Cell(d.input, q) == Cell(c.input, q)
    decreases n
  {
    if n > 0 {
      AfterTurn(p, c, n);
      StepEffect(p, c);
      InputReadOnly(p, Step(p, c).next, n - 1);
    }
  }

  /**
   * The actions the first `n` turns from `c` perform on the memory tape: for
   * each turn that continues, the write and the move of its operation; nothing
   * from the turn that halts on.
   */
  ghost function MemoryTrace(p: ProgramValue, c: Config, n: nat): (r: seq<Action>)
    requires ValidConfig(c)
    ensures |r| <= 2 * n
    decreases n
  {
    if n == 0 then []
    else
      match Step(p, c)
      case Halt(_) => []
      case Continue(next) => MemoryActions(p.code[SnapshotOf(c)]) + MemoryTrace(p, next, n - 1)
  }

  /**
   * The logical positions the memory head was on at the turns, among the first
   * `n` from `c`, that continued: the cells those turns wrote to.
   */
  ghost function MemoryWrites(p: ProgramValue, c: Config, n: nat): (r: set<int>)
    requires ValidConfig(c)
    ensures n > 0 && Step(p, c).Continue? ==> Head(c.memory) in r
    decreases n
  {
    if n == 0 then {}
    else
      match Step(p, c)
      case Halt(_) => {}
      case Continue(next) => {Head(c.memory)} + MemoryWrites(p, next, n - 1)
  }

  /**
   * The memory tape after `n` turns is its starting value with the actions of
   * those turns performed on it in order.
   */
  lemma {:induction false} MemoryHistory(p: ProgramValue, c: Config, n: nat)
    requires ValidConfig(c) && After(p, c, n).Some?
    ensures After(p, c, n).value.memory == PerformedAll(c.memory, MemoryTrace(p, c, n))
    decreases n
  {
    if n > 0 {
      AfterTurn(p, c, n);
      var op := p.code[SnapshotOf(c)];
      var next := Step(p, c).next;
      MemoryHistory(p, next, n - 1);
      PerformedAllAppend(c.memory, MemoryActions(op), MemoryTrace(p, next, n - 1));
    }
  }

  /** A memory cell that none of the first `n` turns wrote to keeps its symbol. */
  lemma {:induction false} MemoryUnwrittenKept(p: ProgramValue, c: Config, n: nat, q: int)
    requires ValidConfig(c) && After(p, c, n).Some?
    requires q !in MemoryWrites(p, c, n)
    ensures Cell(After(p, c, n).value.memory, q) == Cell(c.memory, q)
    decreases n
  {
    if n > 0 {
      AfterTurn(p, c, n);
      StepEffect(p, c);
      MemoryUnwrittenKept(p, Step(p, c).next, n - 1, q);
    }
  }

  /**
   * The empty-fill invariant over a run: after any number of turns from the
   * initial configuration, a memory cell that no turn wrote to reads as the
   * empty symbol.
   */
  lemma MemoryUnwrittenIsEmpty(p: ProgramValue, input: seq<char>, n: nat, q: int)
    requires After(p, Initial(input, p.emptySymbol), n).Some?
    requires q !in MemoryWrites(p, Initial(input, p.emptySymbol), n)
    ensures Cell(After(p, Initial(input, p.emptySymbol), n).value.memory, q) == p.emptySymbol
  {
    MemoryUnwrittenKept(p, Initial(input, p.emptySymbol), n, q);
    CreatedCells([], p.emptySymbol);
  }

  /** On empty input the first turn halts: state 0 if 0 is final, a `NotFinalState(0)` error if not. */
  lemma EmptyInput(p: ProgramValue, fuel: nat)
    requires fuel > 0
    ensures Run(p, Initial([], p.emptySymbol), fuel)
            == if 0 in p.finalStates then Some(Answer(0, None)) else Some(Answer(0, Some(NotFinalState(0))))
  {
    RunTurn(p, Initial([], p.emptySymbol), fuel);
  }

  /**
   * A non-empty input whose first symbol has no transition from state 0 on an
   * empty memory cell fails at once with `UndefinedTransition`.
   */
  lemma MissingFirstTransition(p: ProgramValue, input: seq<char>, fuel: nat)
    requires fuel > 0 && input != [] && input[0] != p.emptySymbol
    requires Snapshot(input[0], p.emptySymbol, 0) !in p.code
    ensures Run(p, Initial(input, p.emptySymbol), fuel)
            == Some(Answer(0, Some(UndefinedTransition(Snapshot(input[0], p.emptySymbol, 0)))))
  {
    var c := Initial(input, p.emptySymbol);
    assert SnapshotOf(c) == Snapshot(input[0], p.emptySymbol, 0);
    RunTurn(p, c, fuel);
  }
}
