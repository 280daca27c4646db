# tsims two-tape machine interpreter, modelled in Dafny

This project models the core of `tsims`, an interpreter for two-tape
machines. The machine reads an input tape that only moves right. It also has
a memory tape that it writes and moves in both directions.

- **Tapes.** A tape is a buffer of symbols with a head index and an empty
  symbol. When the head runs off either end, the buffer grows by 16 empty
  cells. Growing on the left shifts every index by 16.
- **Programs.** A program is a partial transition table from a snapshot
  (input symbol, memory symbol, state) to an operation (input move, memory
  move, symbol to write, next state). It also holds a registry of labelled
  final states.
- **The loop.** Each turn reads the input head:
  - On the empty symbol the machine halts. It accepts if the state is final
    and fails with a not-final error otherwise.
  - Otherwise it looks up the snapshot. A missing entry fails with an
    undefined-transition error.
  - A found operation writes its symbol under the memory head, moves both
    heads and changes the state.

The model has four modules:

- `Tapes` (`tapes.dfy`): the tape.
  - `TapeValue` and its functions give the value semantics.
  - The class `Tape` is the object the interpreter mutates in place. Each
    method is proved to change the object's value as the matching function
    says.
  - A tape also has a logical view. `Cell(t, p)` is the symbol at logical
    position `p`. Position 0 is the first cell the tape was created with.
    `zeroPos` is a ghost field recording where that cell sits in the buffer,
    so the head's logical position `currentPos - zeroPos` can be stated
    across left growth.
- `TapeProperties` (`tape_properties.dfy`): a tape across several
  operations. Moving out and back, cells nobody wrote, the last write.
- `Simulator` (`simulator.dfy`): the program, and the loop's behaviour.
  - `ProgramValue` is the program's content at one moment.
  - `Step` is one turn.
  - `Loop` and `Reach` iterate any turn function with fuel. `Run` and `After`
    are those iterations over the program's turns.
  - `Simulate` is the loop as written, over two `Tape` objects. It is proved
    to return exactly what `Run` says.
- `SimulatorProperties` (`simulator_properties.dfy`): properties of whole
  runs.

## Model

| member | source | states |
|---|---|---|
| Tapes.Created | tape/tape.go:14-24 | The buffer is `[emptySymbol]` for empty content and the content otherwise. The head and the origin start at index 0, and the tape is well formed. |
| Tapes.CreatedCells | tape/tape.go:14-24 | A fresh tape reads its content from logical position 0 on, and the empty symbol everywhere else. |
| Tapes.Enlarged | tape/tape.go:42-62 | Growth adds exactly 16 cells. On the left it shifts the head and the origin by 16; on the right it moves neither. The logical head position is kept, and well-formedness is preserved. |
| Tapes.EnlargedCells | tape/tape.go:42-62 | The old buffer is kept whole, after the new block on the left or before it on the right. Every new cell holds the empty symbol. No logical cell changes. |
| Tapes.Read | tape/tape.go:66-68 | The symbol under the head is the logical cell at the head's position. |
| Tapes.Written | tape/tape.go:93-95 | After a write, the head reads the written symbol. Length, head, origin and empty symbol are unchanged. |
| Tapes.WrittenCells | tape/tape.go:93-95 | A write changes no buffer index other than the head's, and no logical cell other than the head's. |
| Tapes.MovedRight | tape/tape.go:85-90 | The head index and the logical head position go up by one. The buffer grows by 16 exactly when the head reaches its end, and the tape stays well formed. |
| Tapes.MovedRightCells | tape/tape.go:85-90 | Moving right keeps the old buffer as a prefix and fills any new cells with the empty symbol. No logical cell changes. |
| Tapes.MovedLeft | tape/tape.go:74-79 | The logical head position goes down by one. At index 0 the buffer grows by 16, the origin shifts by 16 and the head lands on index 15. Otherwise only the head index drops by one. |
| Tapes.MovedLeftCells | tape/tape.go:74-79 | At index 0 the new buffer is 16 empty symbols followed by the old buffer. No logical cell changes. |
| Tapes.Performed | tape/tape.go:74-95 | Any single head move or write keeps the tape well formed and keeps its empty symbol. |
| Tapes.PerformedAll | tape/tape.go:74-95 | Any sequence of moves and writes keeps the tape well formed and keeps its empty symbol. |
| Tapes.PerformedAllAppend | tape/tape.go:74-95 | Performing two action lists in turn is the same as performing their concatenation. |
| Tapes.Tape.constructor | tape/tape.go:14-24 | The new object is valid and its value is `Created(content, emptySymbol)`. |
| Tapes.Tape.Enlarge | tape/tape.go:42-62 | Filling a block of 16 empty symbols in a loop and attaching it on one side changes the value as `Enlarged` says. |
| Tapes.Tape.HeadSymbol | tape/tape.go:66-68 | It returns the logical cell under the head. |
| Tapes.Tape.HeadToLeft | tape/tape.go:74-79 | The object stays valid, and its new value is `MovedLeft` of the old value. |
| Tapes.Tape.HeadToRight | tape/tape.go:85-90 | The object stays valid, and its new value is `MovedRight` of the old value. |
| Tapes.Tape.Set | tape/tape.go:93-95 | The object stays valid, and its new value is `Written` of the old value with the symbol. |
| Tapes.Tape.Render | tape/tape.go:100-111 | The rendering is the buffer, a line break, exactly `currentPos` spaces and then one caret. |
| TapeProperties.MovedRightTimes | tape/tape.go:85-90 | `n` right moves advance the logical head by `n`, keep the tape well formed and change no logical cell. |
| TapeProperties.MovedLeftTimes | tape/tape.go:74-79 | `n` left moves take the logical head back by `n`, keep the tape well formed and change no logical cell. |
| TapeProperties.Shuttle | tape/tape.go:74-90 | Right `n` then left `n`, or the reverse, returns the head to the same logical cell, with every cell intact despite growth. |
| TapeProperties.UnwrittenCellKept | tape/tape.go:42-95 | A logical cell that no write in a sequence of actions touched keeps its symbol, whatever moves and growth happen. |
| TapeProperties.NeverWrittenIsEmpty | tape/tape.go:14-62 | On a fresh tape, a cell outside the initial content that no write touched reads as the empty symbol. |
| TapeProperties.LastWriteWins | tape/tape.go:93-95 | A written cell reads back as the last symbol written to it. |
| Simulator.Program.constructor | simulator/simulator.go:52-58 | A new program has an empty table and no final states, and it keeps the given empty symbol. |
| Simulator.Program.AddOperation | simulator/simulator.go:62-64 | The snapshot now maps to the operation, replacing any earlier entry. Every other entry and the final states are unchanged. |
| Simulator.Program.AddFinalState | simulator/simulator.go:67-69 | The state now maps to the description, replacing any earlier one. Every other state and the table are unchanged. |
| Simulator.Program.Interpret | simulator/simulator.go:72-78 | There is no error exactly when the state is final, and then the stored description is returned. Otherwise the result is `""` with `NoSuchFinalState`. |
| Simulator.Initial | simulator/simulator.go:86-88 | A run starts in state 0 with both heads at logical position 0. The input head reads the first input symbol, or the empty symbol on empty input. |
| Simulator.SnapshotOf | simulator/simulator.go:118-122 | The transition key of a configuration holds the input cell under the input head, the memory cell under the memory head and the current state. |
| Simulator.InputActions | simulator/simulator.go:130-134 | The input tape is only ever moved right, at most once per turn. |
| Simulator.MemoryActions | simulator/simulator.go:127-142 | A turn first writes the operation's symbol to memory, then makes at most one move. The move is absent exactly for `MemStill`. |
| Simulator.Step | simulator/simulator.go:97-153 | A turn halts with no error exactly when the input reads empty in a final state, and then it keeps that state. Empty input in a non-final state gives `NotFinalState` with state 0. A turn continues exactly when the input is not empty and the snapshot has an entry. A missing entry gives `UndefinedTransition` with state 0. |
| Simulator.StepEffect | simulator/simulator.go:124-144 | A continuing turn sets the operation's state and writes its symbol at the memory head's old position. It moves the input head by 0 or +1 and the memory head by -1, 0 or +1. No other cell of either tape changes. |
| Simulator.Turns | simulator/simulator.go:97-153 | The program's turn function is defined on every valid configuration, keeps validity and agrees with `Step`. |
| Simulator.Loop | simulator/simulator.go:90-154 | Defines the loop over any turn function, with at most `fuel` turns. It answers with the first turn that halts, or `None` when the fuel runs out first. `LoopAnswersIffHalts` characterises it. |
| Simulator.Reach | simulator/simulator.go:90-154 | Every configuration the loop reaches is valid. |
| Simulator.Run | simulator/simulator.go:90-154 | Defines a program's run as `Loop` over that program's turns. `Simulate` is proved equal to it, and `RunTurn`, `RunAnswers` and `AcceptsIffExhaustedInFinal` state what it answers. |
| Simulator.After | simulator/simulator.go:90-154 | Every configuration a program's run reaches is valid. |
| Simulator.RunTurn | simulator/simulator.go:90-154 | A run with fuel left answers as its first turn halts, or else runs on from the next configuration. |
| Simulator.AfterTurn | simulator/simulator.go:90-154 | The configuration after `n` turns is the one `n - 1` turns after the first turn, or none if the first turn halts. |
| Simulator.Perform | simulator/simulator.go:127-142 | Applying an operation to the two tape objects performs on each tape exactly the actions `Step` prescribes. |
| Simulator.Simulate | simulator/simulator.go:84-155 | The loop over two tape objects returns exactly what `Run` gives from the initial configuration. |
| SimulatorProperties.LoopFollowsReach | simulator/simulator.go:90-154 | Running from a configuration is the same as running, with that much less fuel, from wherever `n` turns lead. |
| SimulatorProperties.ReachComposes | simulator/simulator.go:90-154 | Reaching turn `m + k` passes through turn `m` and continues from there for `k` turns. |
| SimulatorProperties.LoopHaltsAt | simulator/simulator.go:90-154 | Every answer of a run is the halt of some turn it reaches within the fuel. |
| SimulatorProperties.HaltsAtLoop | simulator/simulator.go:90-154 | A halting turn reached within the fuel gives the run its answer. |
| SimulatorProperties.LoopAnswersIffHalts | simulator/simulator.go:90-154 | A run answers `a` if and only if some turn it reaches within the fuel halts with `a`. |
| SimulatorProperties.MoreFuelSameAnswer | simulator/simulator.go:90-154 | An answer never changes when the fuel is increased. |
| SimulatorProperties.RunAnswers | simulator/simulator.go:102-114 | A success names a final state. A failure has state 0 and a `NotFinalState` or `UndefinedTransition` error. |
| SimulatorProperties.AcceptsIffExhaustedInFinal | simulator/simulator.go:102-106 | A run succeeds with `q` if and only if some turn it reaches finds the input exhausted in the final state `q`. |
| SimulatorProperties.InputReadOnly | simulator/simulator.go:130-134 | Over any number of turns no input cell changes, the input origin stays put and the input head never moves left. So the head's position never decreases along a run. |
| SimulatorProperties.MemoryTrace | simulator/simulator.go:124-144 | Lists the memory actions of the turns taken: each continuing turn's write and then its move, in order, and nothing once a turn halts. It holds at most two actions per turn. |
| SimulatorProperties.MemoryWrites | simulator/simulator.go:124-144 | Collects the logical positions of the memory head at the turns that continued. Every continuing turn's head position is in the set. |
| SimulatorProperties.MemoryHistory | simulator/simulator.go:124-144 | After `n` turns, the memory tape is its starting value with `MemoryTrace` of those turns performed on it. |
| SimulatorProperties.MemoryUnwrittenKept | simulator/simulator.go:124-144 | A memory cell outside `MemoryWrites` of the first `n` turns keeps its symbol, whatever moves and growth happen. |
| SimulatorProperties.MemoryUnwrittenIsEmpty | simulator/simulator.go:86-144 | After any number of turns from the start, a memory cell outside `MemoryWrites` of those turns reads as the empty symbol. |
| SimulatorProperties.EmptyInput | simulator/simulator.go:86-114 | On empty input the first turn answers `(0, no error)` if 0 is final, and a `NotFinalState(0)` error otherwise. |
| SimulatorProperties.MissingFirstTransition | simulator/simulator.go:117-124 | A non-empty input whose first symbol has no entry from state 0 on an empty memory cell fails at once with `UndefinedTransition`. |

## Left out

- `main.go` is not part of this model. It is a demo entry point that calls a tape method the tape file does not define.
- Debug tracing under the `DEBUG` constant is left out: it only prints.
- The text of error messages is left out, including the tape renderings they embed. Errors are the variants `NotFinalState(state)`, `UndefinedTransition(snapshot)` and `NoSuchFinalState`. `Tape.Render` models the rendering on its own.
- UTF-8 decoding (tape/tape.go:16, :19, :101) is left out. Input strings and descriptions are taken as already-decoded sequences of `char`, and symbols are `char`.
  - Go's runes can be any 32-bit integer. `string(emptySymbol)` at tape/tape.go:16 turns one that is not a Unicode scalar value (a negative value or a surrogate such as 0xD800) into U+FFFD.
  - So for such an empty symbol, `Create("", e)` gives the buffer `[U+FFFD]`, not `[e]`. On empty input the first turn then does not read the empty symbol and does not halt.
  - `char` holds only scalar values, so the model excludes these symbols. On its domain `Created` matches the source.
- Simulator.Simulate: takes an explicit `fuel` bound and returns `None` when it runs out. The source loop has no bound, and a cyclic program runs forever, so nothing here claims termination. `MoreFuelSameAnswer` shows the bound never changes an answer the loop gives.
- Unsigned 64-bit arithmetic on tape positions is not modelled as wrap-around. Positions stay below the buffer length, so it cannot wrap. State identifiers are a subtype bounded by 2^64.
- Out-of-range memory directives are left out. The source's `int8` directive can hold values that match no case of the switch and so make no move. Here the directive is a three-valued datatype.
- Go value semantics of `Tape` are not modelled as separate copies. The interpreter owns its two tapes, and they are two distinct objects here. The program's maps are shared by reference in the source, which the class `Program` reflects.
- On an undefined transition the source returns before touching the tapes. The tapes are local to `Simulate`, so this is not observable, and `Step`'s `Halt` result carries no configuration.
