/**
 * The growable tape: a buffer of symbols, a head index into it, and the
 * empty symbol used to fill the cells the buffer grows by.
 *
 * The module has two layers. `TapeValue` and the functions over it are the
 * value semantics of a tape (what each operation does to the buffer, the
 * head and the zero offset); the class `Tape` is the object the interpreter
 * mutates in place, and each of its methods is proved to change the object's
 * value exactly as the corresponding function says.
 *
 * Besides the buffer view, a tape has a logical view: `Cell(t, p)` is the
 * symbol at logical position `p` of the two-way infinite tape, where logical
 * position 0 is the first cell the tape was created with. `zeroPos` is the
 * buffer index of that cell, so the head sits at logical position
 * `currentPos - zeroPos`, and positions outside the buffer read as empty.
 */
module Tapes {

  /** Number of cells the buffer grows by, on either side. */
  const EnlargeLength: nat := 16

  /** Which end of the buffer to grow. */
  datatype Side = Left | Right

  datatype TapeValue = TapeValue(buffer: seq<char>, zeroPos: nat, currentPos: nat, emptySymbol: char)

  /** The tape invariant: the head (and the logical origin) index real cells. */
  predicate WellFormed(t: TapeValue) {
    t.currentPos < |t.buffer| && t.zeroPos < |t.buffer|
  }

  /** `n` copies of the symbol `e`. */
  function Blanks(n: nat, e: char): (r: seq<char>)
    ensures |r| == n
    ensures forall i :: 0 <= i < n ==> r[i] == e
  {
    seq(n, _ => e)
  }

  /** Logical position of the head. */
  function Head(t: TapeValue): int {
    t.currentPos - t.zeroPos
  }

  /** Symbol at logical position `p`; cells the buffer has not reached yet are empty. */
  function Cell(t: TapeValue, p: int): char {
    var i := p + t.zeroPos;
    if 0 <= i < |t.buffer| then t.buffer[i] else t.emptySymbol
  }

  /**
   * A fresh tape: the content's symbols, or a single empty cell for empty
   * content, with the head and the origin on the first cell.
   */
  function Created(content: seq<char>, emptySymbol: char): (r: TapeValue)
    ensures WellFormed(r) && r.emptySymbol == emptySymbol
    ensures r.currentPos == 0 && r.zeroPos == 0 && Head(r) == 0
    ensures r.buffer == if content == [] then [emptySymbol] else content
  {
    TapeValue(if |content| == 0 then [emptySymbol] else content, 0, 0, emptySymbol)
  }

  /** A fresh tape reads its content from logical position 0 on, and empty elsewhere. */
  lemma CreatedCells(content: seq<char>, emptySymbol: char)
    ensures forall p :: Cell(Created(content, emptySymbol), p) == if 0 <= p < |content| then content[p] else emptySymbol
  {
  }

  /**
   * Grow the buffer by `EnlargeLength` empty cells on one side. Growing on the
   * left shifts every buffer index, the head's and the origin's included.
   */
  function Enlarged(t: TapeValue, side: Side): (r: TapeValue)
    ensures |r.buffer| == |t.buffer| + EnlargeLength && r.emptySymbol == t.emptySymbol
    ensures side == Left ==> r.currentPos == t.currentPos + EnlargeLength && r.zeroPos == t.zeroPos + EnlargeLength
    ensures side == Right ==> r.currentPos == t.currentPos && r.zeroPos == t.zeroPos
    ensures Head(r) == Head(t)
    ensures WellFormed(t) ==> WellFormed(r)
  {
    match side
    case Left =>
      TapeValue(Blanks(EnlargeLength, t.emptySymbol) + t.buffer,
                EnlargeLength + t.zeroPos, EnlargeLength + t.currentPos, t.emptySymbol)
    case Right =>
      t.(buffer := t.buffer + Blanks(EnlargeLength, t.emptySymbol))
  }

  /**
   * Growth keeps the old cells (after the new block on the left, before it on
   * the right), fills the new block with the empty symbol, and so changes no
   * cell at any logical position.
   */
  lemma EnlargedCells(t: TapeValue, side: Side)
    ensures var r := Enlarged(t, side);
            side == Left ==>
              && r.buffer[EnlargeLength..] == t.buffer
              && forall i :: 0 <= i < EnlargeLength ==> r.buffer[i] == t.emptySymbol
    ensures var r := Enlarged(t, side);
            side == Right ==>
              && r.buffer[..|t.buffer|] == t.buffer
              && forall i :: |t.buffer| <= i < |r.buffer| ==> r.buffer[i] == t.emptySymbol
    ensures forall p :: Cell(Enlarged(t, side), p) == Cell(t, p)
  {
  }

  /** Symbol under the head. */
  function Read(t: TapeValue): (r: char)
    requires WellFormed(t)
    ensures r == Cell(t, Head(t))
  {
    t.buffer[t.currentPos]
  }

  /** Overwrite the cell under the head. */
  function Written(t: TapeValue, symbol: char): (r: TapeValue)
    requires WellFormed(t)
    ensures WellFormed(r) && Read(r) == symbol
    ensures |r.buffer| == |t.buffer| && r.currentPos == t.currentPos
    ensures r.zeroPos == t.zeroPos && r.emptySymbol == t.emptySymbol
    ensures Head(r) == Head(t) && Cell(r, Head(t)) == symbol
  {
    t.(buffer := t.buffer[t.currentPos := symbol])
  }

  /** A write changes no cell but the one under the head. */
  lemma WrittenCells(t: TapeValue, symbol: char)
    requires WellFormed(t)
    ensures forall i :: 0 <= i < |t.buffer| && i != t.currentPos ==> Written(t, symbol).buffer[i] == t.buffer[i]
    ensures forall p :: p != Head(t) ==> Cell(Written(t, symbol), p) == Cell(t, p)
  {
  }

  /**
   * Move the head one cell right, growing the buffer on the right when the
   * head runs off its end.
   */
  function MovedRight(t: TapeValue): (r: TapeValue)
    requires WellFormed(t)
    ensures WellFormed(r) && r.emptySymbol == t.emptySymbol
    ensures r.currentPos == t.currentPos + 1 && r.zeroPos == t.zeroPos
    ensures Head(r) == Head(t) + 1
    ensures |r.buffer| == if t.currentPos + 1 == |t.buffer| then |t.buffer| + EnlargeLength else |t.buffer|
  {
    var moved := t.(currentPos := t.currentPos + 1);
    if moved.currentPos == |moved.buffer| then Enlarged(moved, Right) else moved
  }

  /**
   * Moving right keeps the old cells at their indices, fills any new cells
   * with the empty symbol, and so changes no cell at any logical position.
   */
  lemma MovedRightCells(t: TapeValue)
    requires WellFormed(t)
    ensures MovedRight(t).buffer[..|t.buffer|] == t.buffer
    ensures forall i :: |t.buffer| <= i < |MovedRight(t).buffer| ==> MovedRight(t).buffer[i] == t.emptySymbol
    ensures forall p :: Cell(MovedRight(t), p) == Cell(t, p)
  {
    EnlargedCells(t.(currentPos := t.currentPos + 1), Right);
  }

  /**
   * Move the head one cell left; at the left end, first grow the buffer on
   * the left, which puts the head at index `EnlargeLength - 1`.
   */
  function MovedLeft(t: TapeValue): (r: TapeValue)
    requires WellFormed(t)
    ensures WellFormed(r) && r.emptySymbol == t.emptySymbol
    ensures Head(r) == Head(t) - 1
    ensures t.currentPos == 0 ==>
              && |r.buffer| == |t.buffer| + EnlargeLength
              && r.zeroPos == t.zeroPos + EnlargeLength
              && r.currentPos == EnlargeLength - 1
    ensures t.currentPos > 0 ==>
              r.buffer == t.buffer && r.zeroPos == t.zeroPos && r.currentPos == t.currentPos - 1
  {
    var grown := if t.currentPos == 0 then Enlarged(t, Left) else t;
    grown.(currentPos := grown.currentPos - 1)
  }

  /**
   * Moving left off the left end puts a block of empty cells before the old
   * buffer; either way no cell changes at any logical position.
   */
  lemma MovedLeftCells(t: TapeValue)
    requires WellFormed(t)
    ensures t.currentPos == 0 ==> MovedLeft(t).buffer == Blanks(EnlargeLength, t.emptySymbol) + t.buffer
    ensures forall p :: Cell(MovedLeft(t), p) == Cell(t, p)
  {
    EnlargedCells(t, Left);
  }

  /** One thing a turn of the interpreter does to a tape. */
  datatype Action = StepLeft | StepRight | Put(symbol: char)

  function Performed(t: TapeValue, a: Action): (r: TapeValue)
    requires WellFormed(t)
    ensures WellFormed(r) && r.emptySymbol == t.emptySymbol
  {
    match a
    case StepLeft => MovedLeft(t)
    case StepRight => MovedRight(t)
    case Put(s) => Written(t, s)
  }

  /** The tape after performing `actions` in order. */
  function PerformedAll(t: TapeValue, actions: seq<Action>): (r: TapeValue)
    requires WellFormed(t)
    ensures WellFormed(r) && r.emptySymbol == t.emptySymbol
    decreases |actions|
  {
    if actions == [] then t else PerformedAll(Performed(t, actions[0]), actions[1..])
  }

  /** Performing two lists one after the other is performing their concatenation. */
  lemma {:induction false} PerformedAllAppend(t: TapeValue, xs: seq<Action>, ys: seq<Action>)
    requires WellFormed(t)
    ensures PerformedAll(t, xs + ys) == PerformedAll(PerformedAll(t, xs), ys)
    decreases |xs|
  {
    if xs != [] {
      assert (xs + ys)[1..] == xs[1..] + ys;
      PerformedAllAppend(Performed(t, xs[0]), xs[1..], ys);
    } else {
      assert xs + ys == ys;
    }
  }

  /** A list of one action is that action. */
  lemma PerformedAllSingle(t: TapeValue, a: Action)
    requires WellFormed(t)
    ensures PerformedAll(t, [a]) == Performed(t, a)
  {
    assert [a][1..] == [];
  }

  /**
   * The tape object the interpreter owns and mutates in place. `zeroPos` is
   * bookkeeping that nothing reads back; it is kept as a ghost field so that
   * the logical position of the head can be stated across left growth.
   */
  class Tape {
    var buffer: seq<char>
    ghost var zeroPos: nat
    var currentPos: nat
    const emptySymbol: char

    ghost function Value(): TapeValue
      reads this
    {
      TapeValue(buffer, zeroPos, currentPos, emptySymbol)
    }

    ghost predicate Valid()
      reads this
    {
      WellFormed(Value())
    }

    constructor (content: seq<char>, emptySymbol: char)
      ensures Valid() && Value() == Created(content, emptySymbol)
    {
      var initial := content;
      if |initial| == 0 {
        initial := [emptySymbol];
      }
      buffer := initial;
      zeroPos := 0;
      currentPos := 0;
      this.emptySymbol := emptySymbol;
    }

    /** Fill a block of `EnlargeLength` empty cells and attach it on one side. */
    method Enlarge(side: Side)
      modifies this
      ensures Value() == Enlarged(old(Value()), side)
    {
      var block := new char[EnlargeLength];
      var i := 0;
      while i < block.Length
        modifies block
        invariant 0 <= i <= block.Length
        invariant forall k :: 0 <= k < i ==> block[k] == emptySymbol
      {
        block[i] := emptySymbol;
        i := i + 1;
      }
      assert block[..] == Blanks(EnlargeLength, emptySymbol);
      match side
      case Left =>
        buffer, zeroPos, currentPos := block[..] + buffer, EnlargeLength + zeroPos, EnlargeLength + currentPos;
      case Right =>
        buffer := buffer + block[..];
    }

    /** The symbol under the head. */
    function HeadSymbol(): (r: char)
      reads this
      requires Valid()
      ensures r == Cell(Value(), Head(Value()))
    {
      buffer[currentPos]
    }

    method HeadToLeft()
      requires Valid()
      modifies this
      ensures Valid() && Value() == MovedLeft(old(Value()))
    {
      if currentPos == 0 {
        Enlarge(Left);
      }
      currentPos := currentPos - 1;
    }

    method HeadToRight()
      requires Valid()
      modifies this
      ensures Valid() && Value() == MovedRight(old(Value()))
    {
      currentPos := currentPos + 1;
      if currentPos == |buffer| {
        Enlarge(Right);
      }
    }

    method Set(symbol: char)
      requires Valid()
      modifies this
      ensures Valid() && Value() == Written(old(Value()), symbol)
    {
      buffer := buffer[currentPos := symbol];
    }

    /**
     * The diagnostic rendering: the buffer, a line break, then a marker line
     * of `currentPos` spaces and a caret under the head.
     */
    method Render() returns (r: seq<char>)
      ensures r == buffer + ['\n'] + Blanks(currentPos, ' ') + ['^']
    {
      var pos := new char[currentPos + 1];
      var i := 0;
      while i < pos.Length
        invariant 0 <= i <= pos.Length
        invariant forall k :: 0 <= k < i ==> pos[k] == if k == currentPos then '^' else ' '
      {
        if i == currentPos {
          pos[i] := '^';
        } else {
          pos[i] := ' ';
        }
        i := i + 1;
      }
      assert pos[..] == Blanks(currentPos, ' ') + ['^'];
      r := buffer + ['\n'] + pos[..];
    }
  }
}
