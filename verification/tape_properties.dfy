/**
 * Properties of the tape across several operations: moving the head out and
 * back returns it to the same logical cell with every cell intact, and a cell
 * that no write ever reached still reads as it did when the tape was created
 * (the empty symbol, outside the initial content).
 */
module TapeProperties {
  import opened Tapes

  /** `n` moves to the right. */
  function MovedRightTimes(t: TapeValue, n: nat): (r: TapeValue)
    requires WellFormed(t)
    ensures WellFormed(r) && r.emptySymbol == t.emptySymbol
    ensures Head(r) == Head(t) + n
    ensures forall p :: Cell(r, p) == Cell(t, p)
    decreases n
  {
    if n == 0 then t else MovedRightTimes(MovedRight(t), n - 1)
  }

  /** `n` moves to the left. */
  function MovedLeftTimes(t: TapeValue, n: nat): (r: TapeValue)
    requires WellFormed(t)
    ensures WellFormed(r) && r.emptySymbol == t.emptySymbol
    ensures Head(r) == Head(t) - n
    ensures forall p :: Cell(r, p) == Cell(t, p)
    decreases n
  {
    if n == 0 then t else MovedLeftTimes(MovedLeft(t), n - 1)
  }

  /**
   * Going `n` cells right and then `n` cells left, or the reverse, puts the
   * head back on the same logical cell, and every cell keeps its symbol at
   * its logical position, however much the buffer grew on the way.
   */
  lemma Shuttle(t: TapeValue, n: nat)
    requires WellFormed(t)
    ensures var there := MovedLeftTimes(MovedRightTimes(t, n), n);
            Head(there) == Head(t) && forall p :: Cell(there, p) == Cell(t, p)
    ensures var there := MovedRightTimes(MovedLeftTimes(t, n), n);
            Head(there) == Head(t) && forall p :: Cell(there, p) == Cell(t, p)
  {
  }

  /** The logical positions that some `Put` of `actions` wrote to. */
  function PutPositions(t: TapeValue, actions: seq<Action>): set<int>
    requires WellFormed(t)
    decreases |actions|
  {
    if actions == [] then {}
    else (if actions[0].Put? then {Head(t)} else {})
         + PutPositions(Performed(t, actions[0]), actions[1..])
  }

  /** A cell no `Put` wrote to keeps its symbol, whatever the moves and growth. */
  lemma {:induction false} UnwrittenCellKept(t: TapeValue, actions: seq<Action>, p: int)
    requires WellFormed(t)
    requires p !in PutPositions(t, actions)
    ensures Cell(PerformedAll(t, actions), p) == Cell(t, p)
    decreases |actions|
  {
    if actions != [] {
      UnwrittenCellKept(Performed(t, actions[0]), actions[1..], p);
    }
  }

  /**
   * The empty-fill invariant: on a tape created from `content`, a cell outside
   * the content that no `Put` wrote to reads as the empty symbol.
   */
  lemma NeverWrittenIsEmpty(content: seq<char>, emptySymbol: char, actions: seq<Action>, p: int)
    requires !(0 <= p < |content|)
    requires p !in PutPositions(Created(content, emptySymbol), actions)
    ensures Cell(PerformedAll(Created(content, emptySymbol), actions), p) == emptySymbol
  {
    UnwrittenCellKept(Created(content, emptySymbol), actions, p);
  }

  /** A written cell reads back as the last symbol written to it. */
  lemma {:induction false} LastWriteWins(t: TapeValue, actions: seq<Action>, s: char)
    requires WellFormed(t)
    requires Head(t) !in PutPositions(Written(t, s), actions)
    ensures Cell(PerformedAll(t, [Put(s)] + actions), Head(t)) == s
  {
    assert ([Put(s)] + actions)[1..] == actions;
    UnwrittenCellKept(Written(t, s), actions, Head(t));
  }
}
