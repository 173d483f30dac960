/** The content of one board cell, which is also the mark a player places. */
module PositionStates {

  /** A cell is empty or holds one of the two marks. */
  datatype PositionState = Empty | X | O

  /** The one-character text of a cell: a space for an empty cell, else the mark's letter. */
  function Str(m: PositionState): (s: string)
    ensures |s| == 1
  {
    match m
    case Empty => " "
    case X => "X"
    case O => "O"
  }

  /** Different cell contents print differently, so the text of a cell determines the cell. */
  lemma StrInjective(a: PositionState, b: PositionState)
    requires Str(a) == Str(b)
    ensures a == b
  {
  }

  /**
   * The mark whose move comes after `t`'s: X after O, and O after anything else.
   * This is the expression a move uses to hand the turn over.
   */
  function Flip(t: PositionState): (r: PositionState)
    ensures r != Empty
    ensures t != Empty ==> r != t
  {
    if t == O then X else O
  }

  /** Handing the turn over twice gives it back to the same player. */
  lemma FlipTwice(t: PositionState)
    requires t != Empty
    ensures Flip(Flip(t)) == t
  {
    match t
    case X =>
    case O =>
  }
}
