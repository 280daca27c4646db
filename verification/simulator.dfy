/**
 * The two-tape machine: a program (a partial transition table and a registry
 * of labelled final states) and the loop that runs it on an input string.
 *
 * A configuration is the control state together with the input and memory
 * tapes. `Step` is one turn of the loop as a function of the configuration,
 * `Run` is the loop bounded by fuel, and `Simulate` is the loop as it is
 * written, over two tape objects, proved to return what `Run` returns.
 */
module Simulator {
  import opened Tapes

  datatype Option<T> = None | Some(value: T)

  /** Control states are unsigned 64-bit identifiers; state 0 is the start state. */
  type StateId = n: nat | n < 0x1_0000_0000_0000_0000

  /** Input head directive: stay, or advance one cell right. */
  datatype InputMove = InStill | InRight

  /** Memory head directive. */
  datatype MemoryMove = MemLeft | MemStill | MemRight

  /** The effect of a transition. */
  datatype Operation = Operation(moveInput: InputMove, moveMem: MemoryMove, symbol: char, state: StateId)

  /** The key of a transition. */
  datatype Snapshot = Snapshot(inputSymbol: char, memorySymbol: char, state: StateId)

  datatype Error =
    | NoSuchFinalState
    | NotFinalState(state: StateId)
    | UndefinedTransition(snapshot: Snapshot)

  /** What the interpreter returns: a state and, on failure, an error (the state is then 0). */
  datatype Answer = Answer(state: StateId, err: Option<Error>)

  /** What a program holds at one moment: its transition table, empty symbol and final states. */
  datatype ProgramValue = ProgramValue(code: map<Snapshot, Operation>, emptySymbol: char, finalStates: map<StateId, string>)

  /**
   * A program. Its maps are shared by every holder of the program, so adding
   * an operation or a final state updates them in place; a later addition
   * for the same key replaces the earlier one.
   */
  class Program {
    var code: map<Snapshot, Operation>
    const emptySymbol: char
    var finalStates: map<StateId, string>

    ghost function Value(): ProgramValue
      reads this
    {
      ProgramValue(code, emptySymbol, finalStates)
    }

    constructor (emptySymbol: char)
      ensures code == map[] && finalStates == map[] && this.emptySymbol == emptySymbol
    {
      code := map[];
      this.emptySymbol := emptySymbol;
      finalStates := map[];
    }

    method AddOperation(snapshot: Snapshot, operation: Operation)
      modifies this
      ensures snapshot in code && code[snapshot] == operation
      ensures forall s :: s != snapshot ==> (s in code <==> s in old(code))
      ensures forall s :: s != snapshot && s in old(code) ==> code[s] == old(code)[s]
      ensures finalStates == old(finalStates)
    {
      code := code[snapshot := operation];
    }

    method AddFinalState(state: StateId, description: string)
      modifies this
      ensures state in finalStates && finalStates[state] == description
      ensures forall q :: q != state ==> (q in finalStates <==> q in old(finalStates))
      ensures forall q :: q != state && q in old(finalStates) ==> finalStates[q] == old(finalStates)[q]
      ensures code == old(code)
    {
      finalStates := finalStates[state := description];
    }

    /** The description of a final state, or an error for any other state. */
    function Interpret(state: StateId): (r: (string, Option<Error>))
      reads this
      ensures r.1 == None <==> state in finalStates
      ensures state in finalStates ==> r.0 == finalStates[state]
      ensures state !in finalStates ==> r.0 == "" && r.1 == Some(NoSuchFinalState)
    {
      if state in finalStates then (finalStates[state], None) else ("", Some(NoSuchFinalState))
    }
  }

  datatype Config = Config(state: StateId, input: TapeValue, memory: TapeValue)

  predicate ValidConfig(c: Config) {
    WellFormed(c.input) && WellFormed(c.memory)
  }

  /** The configuration a run starts from. */
  function Initial(input: seq<char>, emptySymbol: char): (c: Config)
    ensures ValidConfig(c) && c.state == 0
    ensures Head(c.input) == 0 && Head(c.memory) == 0
    ensures Read(c.input) == if input == [] then emptySymbol else input[0]
  {
    Config(0, Created(input, emptySymbol), Created([], emptySymbol))
  }

  /** The transition key of a configuration. */
  function SnapshotOf(c: Config): (s: Snapshot)
    requires ValidConfig(c)
    ensures s.inputSymbol == Cell(c.input, Head(c.input))
    ensures s.memorySymbol == Cell(c.memory, Head(c.memory))
    ensures s.state == c.state
  {
    Snapshot(Read(c.input), Read(c.memory), c.state)
  }

  /** How far a memory directive moves the head. */
  function Delta(m: MemoryMove): int {
    match m
    case MemLeft => -1
    case MemStill => 0
    case MemRight => 1
  }

  /** What a turn does to the input tape: nothing, or one move right. */
  function InputActions(m: InputMove): (r: seq<Action>)
    ensures |r| <= 1 && forall i :: 0 <= i < |r| ==> r[i] == StepRight
    ensures r == [] <==> m == InStill
  {
    match m
    case InStill => []
    case InRight => [StepRight]
  }

  /** What a turn does to the memory tape: write the symbol, then move as directed. */
  function MemoryActions(op: Operation): (r: seq<Action>)
    ensures 1 <= |r| <= 2 && r[0] == Put(op.symbol)
    ensures forall i :: 1 <= i < |r| ==> !r[i].Put?
    ensures |r| == 1 <==> op.moveMem == MemStill
  {
    match op.moveMem
    case MemLeft => [Put(op.symbol), StepLeft]
    case MemStill => [Put(op.symbol)]
    case MemRight => [Put(op.symbol), StepRight]
  }

  datatype StepResult = Continue(next: Config) | Halt(answer: Answer)

  /**
   * One turn of the loop. An empty input cell halts: with the state when it
   * is final, with `NotFinalState` otherwise. Otherwise the snapshot is looked
   * up: a missing entry halts with `UndefinedTransition`; a present one writes
   * its symbol under the memory head, moves both heads and changes the state.
   */
  function Step(p: ProgramValue, c: Config): (r: StepResult)
    requires ValidConfig(c)
    ensures r.Halt? && r.answer.err == None <==> Read(c.input) == p.emptySymbol && c.state in p.finalStates
    ensures r.Halt? && r.answer.err == None ==> r.answer.state == c.state
    ensures Read(c.input) == p.emptySymbol && c.state !in p.finalStates ==>
              r == Halt(Answer(0, Some(NotFinalState(c.state))))
    ensures r.Continue? <==> Read(c.input) != p.emptySymbol && SnapshotOf(c) in p.code
    ensures r.Continue? ==> ValidConfig(r.next)
    ensures Read(c.input) != p.emptySymbol && SnapshotOf(c) !in p.code ==>
              r == Halt(Answer(0, Some(UndefinedTransition(SnapshotOf(c)))))
  {
    var ch := Read(c.input);
    if ch == p.emptySymbol then
      if c.state in p.finalStates then Halt(Answer(c.state, None))
      else Halt(Answer(0, Some(NotFinalState(c.state))))
    else
      var snapshot := Snapshot(ch, Read(c.memory), c.state);
      if snapshot in p.code then
        var op := p.code[snapshot];
        Continue(Config(op.state, PerformedAll(c.input, InputActions(op.moveInput)),
                        PerformedAll(c.memory, MemoryActions(op))))
      else
        Halt(Answer(0, Some(UndefinedTransition(snapshot))))
  }

  /**
   * The effect of a turn that continues: the operation's symbol is written
   * under the memory head before it moves, the input head stays or advances
   * by one, the memory head moves by -1, 0 or +1, the operation's state
   * becomes the current one, and no other cell of either tape changes.
   */
  lemma StepEffect(p: ProgramValue, c: Config)
    requires ValidConfig(c)
    requires Step(p, c).Continue?
    ensures var op := p.code[SnapshotOf(c)];
            var n := Step(p, c).next;
            && ValidConfig(n)
            && n.state == op.state
            && Head(n.input) == Head(c.input) + (if op.moveInput == InRight then 1 else 0)
            && n.input.zeroPos == c.input.zeroPos
            && (forall q :: Cell(n.input, q) == Cell(c.input, q))
            && Head(n.memory) == Head(c.memory) + Delta(op.moveMem)
            && Cell(n.memory, Head(c.memory)) == op.symbol
            && (forall q :: q != Head(c.memory) ==> Cell(n.memory, q) == Cell(c.memory, q))
  {
    var op := p.code[SnapshotOf(c)];
    var n := Step(p, c).next;
    var written := Written(c.memory, op.symbol);
    WrittenCells(c.memory, op.symbol);
    match op.moveInput {
      case InStill =>
      case InRight =>
        PerformedAllSingle(c.input, StepRight);
        MovedRightCells(c.input);
    }
    match op.moveMem {
      case MemLeft =>
        PerformedAllAppend(c.memory, [Put(op.symbol)], [StepLeft]);
        PerformedAllSingle(c.memory, Put(op.symbol));
        PerformedAllSingle(written, StepLeft);
        MovedLeftCells(written);
      case MemStill =>
        PerformedAllSingle(c.memory, Put(op.symbol));
      case MemRight =>
        PerformedAllAppend(c.memory, [Put(op.symbol)], [StepRight]);
        PerformedAllSingle(c.memory, Put(op.symbol));
        PerformedAllSingle(written, StepRight);
        MovedRightCells(written);
    }
  }

  /** A turn function is closed when it is defined on every valid configuration and keeps validity. */
  ghost predicate Closed(turn: Config --> StepResult) {
    forall c :: ValidConfig(c) ==> turn.requires(c) && (turn(c).Continue? ==> ValidConfig(turn(c).next))
  }

  /** The turns of program `p`, as a function value. */
  function Turns(p: ProgramValue): (turn: Config --> StepResult)
    ensures Closed(turn)
    ensures forall c :: ValidConfig(c) ==> turn(c) == Step(p, c)
  {
    c requires ValidConfig(c) => Step(p, c)
  }

  /**
   * The loop over any closed turn function, with at most `fuel` turns;
   * `None` when the fuel runs out before a turn halts.
   */
  function Loop(turn: Config --> StepResult, c: Config, fuel: nat): Option<Answer>
    requires Closed(turn) && ValidConfig(c)
    decreases fuel
  {
    if fuel == 0 then None
    else
      match turn(c)
      case Halt(a) => Some(a)
      case Continue(next) => Loop(turn, next, fuel - 1)
  }

  /** The configuration after `n` turns, or `None` when a turn halts before that. */
  function Reach(turn: Config --> StepResult, c: Config, n: nat): (r: Option<Config>)
    requires Closed(turn) && ValidConfig(c)
    ensures r.Some? ==> ValidConfig(r.value)
    decreases n
  {
    if n == 0 then Some(c)
    else
      match turn(c)
      case Halt(_) => None
      case Continue(next) => Reach(turn, next, n - 1)
  }

  /** The interpreter loop of program `p` from `c`, with at most `fuel` turns. */
  function Run(p: ProgramValue, c: Config, fuel: nat): Option<Answer>
    requires ValidConfig(c)
  {
    Loop(Turns(p), c, fuel)
  }

  /** The configuration of program `p` after `n` turns from `c`, or `None` when it halts before. */
  function After(p: ProgramValue, c: Config, n: nat): (r: Option<Config>)
    requires ValidConfig(c)
    ensures r.Some? ==> ValidConfig(r.value)
  {
    Reach(Turns(p), c, n)
  }

  /** The loop's equation: a run with fuel left is its first turn, then the rest. */
  lemma RunTurn(p: ProgramValue, c: Config, fuel: nat)
    requires ValidConfig(c) && fuel > 0
    ensures Run(p, c, fuel) == match Step(p, c)
                               case Halt(a) => Some(a)
                               case Continue(next) => Run(p, next, fuel - 1)
  {
  }

  /** The same equation for the configuration after `n` turns. */
  lemma AfterTurn(p: ProgramValue, c: Config, n: nat)
    requires ValidConfig(c) && n > 0
    ensures After(p, c, n) == match Step(p, c)
                              case Halt(_) => None
                              case Continue(next) => After(p, next, n - 1)
  {
  }

  /**
   * Apply a found operation to the tapes: write its symbol under the memory
   * head, then move the input head and the memory head as it directs.
   */
  method Perform(op: Operation, inputTape: Tape, memory: Tape)
    requires inputTape.Valid() && memory.Valid() && inputTape != memory
    modifies inputTape, memory
    ensures inputTape.Valid() && memory.Valid()
    ensures inputTape.Value() == PerformedAll(old(inputTape.Value()), InputActions(op.moveInput))
    ensures memory.Value() == PerformedAll(old(memory.Value()), MemoryActions(op))
  {
    ghost var m0 := memory.Value();
    memory.Set(op.symbol);
    PerformedAllSingle(m0, Put(op.symbol));
    match op.moveInput {
      case InStill =>
      case InRight =>
        PerformedAllSingle(inputTape.Value(), StepRight);
        inputTape.HeadToRight();
    }
    match op.moveMem {
      case MemLeft =>
        PerformedAllAppend(m0, [Put(op.symbol)], [StepLeft]);
        PerformedAllSingle(memory.Value(), StepLeft);
        memory.HeadToLeft();
      case MemStill =>
      case MemRight =>
        PerformedAllAppend(m0, [Put(op.symbol)], [StepRight]);
        PerformedAllSingle(memory.Value(), StepRight);
        memory.HeadToRight();
    }
  }

  /**
   * The interpreter loop over two tape objects, bounded by `fuel` turns.
   * It returns exactly what `Run` says of the initial configuration.
   */
  method Simulate(program: Program, input: seq<char>, fuel: nat) returns (r: Option<Answer>)
    ensures r == Run(program.Value(), Initial(input, program.emptySymbol), fuel)
  {
    var inputTape := new Tape(input, program.emptySymbol);
    var memory := new Tape([], program.emptySymbol);
    var state: StateId := 0;
    var turns := 0;
    ghost var p := program.Value();
    while turns < fuel
      invariant turns <= fuel
      invariant inputTape.Valid() && memory.Valid()
      invariant Run(p, Initial(input, p.emptySymbol), fuel)
                == Run(p, Config(state, inputTape.Value(), memory.Value()), fuel - turns)
    {
      ghost var c := Config(state, inputTape.Value(), memory.Value());
      RunTurn(p, c, fuel - turns);
      var ch := inputTape.HeadSymbol();
      if ch == program.emptySymbol {
        if state in program.finalStates {
          return Some(Answer(state, None));
        } else {
          return Some(Answer(0, Some(NotFinalState(state))));
        }
      }
      var snapshot := Snapshot(ch, memory.HeadSymbol(), state);
      if snapshot in program.code {
        var op := program.code[snapshot];
        Perform(op, inputTape, memory);
        state := op.state;
        assert Step(p, c) == Continue(Config(state, inputTape.Value(), memory.Value()));
      } else {
        return Some(Answer(0, Some(UndefinedTransition(snapshot))));
      }
      turns := turns + 1;
    }
    return None;
  }
}
