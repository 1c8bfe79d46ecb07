/** The leader's walk across the board: one forced or random step per tick,
    right or down, until it stands on the final cell. */
module Leader {
  import opened Board

  /** How many steps separate a cell from the final cell, moving only right and down. */
  function Remaining(b: Board, pos: int): int
    requires b.Valid()
  {
    (b.side - 1 - b.Row(pos)) + (b.side - 1 - b.Col(pos))
  }

  /** The distance to the final cell is 2(side-1) from cell 0, never negative,
      and zero on the final cell only. */
  lemma RemainingBounds(b: Board, pos: int)
    requires b.Valid() && b.OnBoard(pos)
    ensures 0 <= Remaining(b, pos) <= 2 * (b.side - 1)
    ensures Remaining(b, pos) == 0 <==> pos == b.Final()
    ensures pos == 0 ==> Remaining(b, pos) == 2 * (b.side - 1)
  {
    CoordsOf(b, pos);
    FinalAt(b, pos);
  }

  /** `q` is the right or the lower neighbour of `p`, a cell other than the final one:
      the two moves the leader is ever allowed. */
  predicate IsStep(b: Board, p: int, q: int)
    requires b.Valid()
  {
    b.OnBoard(p) && p != b.Final() &&
    ((q == p + 1 && !b.IsRightEdge(p)) || (q == p + b.side && !b.IsBottomRow(p)))
  }

  /** A step lands on the board, stays in its row (right) or its column (down), and
      brings the walker one move closer to the final cell. */
  lemma StepFacts(b: Board, p: int, q: int)
    requires b.Valid() && IsStep(b, p, q)
    ensures b.OnBoard(q) && p < q
    ensures (q == p + 1 && b.Row(q) == b.Row(p) && b.Col(q) == b.Col(p) + 1) ||
            (q == p + b.side && b.Row(q) == b.Row(p) + 1 && b.Col(q) == b.Col(p))
    ensures Remaining(b, q) == Remaining(b, p) - 1
  {
    if q == p + 1 && !b.IsRightEdge(p) {
      assert b.OnBoard(q) && b.Row(q) == b.Row(p) && b.Col(q) == b.Col(p) + 1 by {
        assert b.Col(p) < b.side - 1 by { EdgesAt(b, p); CoordsOf(b, p); }
        StepRight(b, p);
      }
    } else {
      assert q == p + b.side && !b.IsBottomRow(p);
      assert b.OnBoard(q) && b.Row(q) == b.Row(p) + 1 && b.Col(q) == b.Col(p) by {
        assert b.Row(p) < b.side - 1 by { EdgesAt(b, p); CoordsOf(b, p); }
        StepDown(b, p);
      }
    }
  }

  /** Where the forced moves apply, cell by cell. */
  lemma MoveRoom(b: Board, pos: int)
    requires b.Valid() && b.OnBoard(pos) && pos != b.Final()
    ensures b.IsRightEdge(pos) ==> !b.IsBottomRow(pos)
  {
    EdgesAt(b, pos);
    FinalAt(b, pos);
  }

  /** The cell the leader moves to from a cell other than the final one: forced down
      on the right edge, otherwise forced right on the bottom row, otherwise right
      when the coin `goRight` says so and down when it does not. */
  function Next(b: Board, pos: int, goRight: bool): (next: int)
    requires b.Valid() && b.OnBoard(pos) && pos != b.Final()
    ensures IsStep(b, pos, next) && b.OnBoard(next)
  {
    MoveRoom(b, pos);
    var next :=
      if b.IsRightEdge(pos) then pos + b.side
      else if b.IsBottomRow(pos) then pos + 1
      else if goRight then pos + 1
      else pos + b.side;
    StepFacts(b, pos, next);
    next
  }

  /** Each move of the leader brings it one step closer to the final cell. */
  lemma NextNearer(b: Board, pos: int, goRight: bool)
    requires b.Valid() && b.OnBoard(pos) && pos != b.Final()
    ensures Remaining(b, Next(b, pos, goRight)) == Remaining(b, pos) - 1
  {
    StepFacts(b, pos, Next(b, pos, goRight));
  }

  /** The leader's policy chooses among exactly the allowed steps: its forced moves
      rule out only the step that would leave the board. */
  lemma NextChoosesSteps(b: Board, p: int, q: int)
    requires b.Valid() && b.OnBoard(p) && p != b.Final()
    ensures IsStep(b, p, q) <==> (q == Next(b, p, true) || q == Next(b, p, false))
  {
    MoveRoom(b, p);
  }

  /** The same step in grid coordinates: down in the last column, right in the last
      row, and the coin's direction anywhere else. */
  lemma NextInGrid(b: Board, pos: int, goRight: bool)
    requires b.Valid() && b.OnBoard(pos) && pos != b.Final()
    ensures var r, c := b.Row(pos), b.Col(pos);
      if c == b.side - 1 then Next(b, pos, goRight) == b.Cell(r + 1, c) && r + 1 < b.side
      else if r == b.side - 1 then Next(b, pos, goRight) == b.Cell(r, c + 1) && c + 1 < b.side
      else Next(b, pos, goRight) == (if goRight then b.Cell(r, c + 1) else b.Cell(r + 1, c))
  {
    EdgesAt(b, pos);
    FinalAt(b, pos);
    CoordsOf(b, pos);
    assert b.Cell(b.Row(pos) + 1, b.Col(pos)) == pos + b.side;
  }

  /** A sequence of cells the leader can occupy tick after tick, starting on cell 0. */
  predicate IsLeaderPath(b: Board, w: seq<int>)
    requires b.Valid()
  {
    |w| > 0 && w[0] == 0 &&
    (forall i :: 0 <= i < |w| ==> b.OnBoard(w[i])) &&
    (forall i :: 0 <= i < |w| - 1 ==> IsStep(b, w[i], w[i + 1]))
  }

  /** A tick that moves the leader extends its path. */
  lemma ExtendPath(b: Board, w: seq<int>, goRight: bool)
    requires b.Valid() && IsLeaderPath(b, w) && w[|w| - 1] != b.Final()
    ensures IsLeaderPath(b, w + [Next(b, w[|w| - 1], goRight)])
  {
    var w' := w + [Next(b, w[|w| - 1], goRight)];
    forall i | 0 <= i < |w'| - 1
      ensures IsStep(b, w'[i], w'[i + 1])
    {
      if i < |w| - 1 {
        assert w'[i] == w[i] && w'[i + 1] == w[i + 1];
      }
    }
  }

  /** The i-th cell of a leader path is 2(side-1) - i steps from the final cell. */
  lemma {:induction false} PathRemaining(b: Board, w: seq<int>, i: int)
    requires b.Valid() && IsLeaderPath(b, w) && 0 <= i < |w|
    ensures Remaining(b, w[i]) == 2 * (b.side - 1) - i
  {
    if i == 0 {
      RemainingBounds(b, 0);
    } else {
      PathRemaining(b, w, i - 1);
      assert IsStep(b, w[i - 1], w[i]);
      StepFacts(b, w[i - 1], w[i]);
    }
  }

  /** A leader path has at most 2·side - 1 cells; it has reached the final cell exactly
      when it has made 2(side-1) moves, and it never passes the final cell before its end. */
  lemma PathLength(b: Board, w: seq<int>)
    requires b.Valid() && IsLeaderPath(b, w)
    ensures |w| <= 2 * b.side - 1
    ensures w[|w| - 1] == b.Final() <==> |w| == 2 * b.side - 1
    ensures forall i :: 0 <= i < |w| - 1 ==> w[i] != b.Final()
  {
    PathRemaining(b, w, |w| - 1);
    RemainingBounds(b, w[|w| - 1]);
    forall i | 0 <= i < |w| - 1
      ensures w[i] != b.Final()
    {
      assert IsStep(b, w[i], w[i + 1]);
    }
  }

  /** The cells of a leader path strictly increase, so no cell is visited twice,
      and each is the right or the lower neighbour of the one before. */
  lemma {:induction false} PathIncreasing(b: Board, w: seq<int>, i: int, j: int)
    requires b.Valid() && IsLeaderPath(b, w) && 0 <= i < j < |w|
    ensures w[i] < w[j]
    ensures j == i + 1 ==>
      (w[j] == w[i] + 1 && b.Row(w[j]) == b.Row(w[i])) ||
      (w[j] == w[i] + b.side && b.Col(w[j]) == b.Col(w[i]))
  {
    assert IsStep(b, w[j - 1], w[j]);
    StepFacts(b, w[j - 1], w[j]);
    if i < j - 1 {
      PathIncreasing(b, w, i, j - 1);
    }
  }

  /** The leader's cells when the coin comes up `choices[0]`, `choices[1]`, ... :
      it reaches the final cell for every sequence of choices, after exactly as many
      moves as its distance to that cell, and stops there. */
  function Walk(b: Board, pos: int, choices: seq<bool>): (w: seq<int>)
    requires b.Valid() && b.OnBoard(pos) && |choices| >= Remaining(b, pos)
    ensures |w| > 0 && w[0] == pos && w[|w| - 1] == b.Final()
    ensures |w| == Remaining(b, pos) + 1
    ensures forall i :: 0 <= i < |w| ==> b.OnBoard(w[i])
    ensures forall i :: 0 <= i < |w| - 1 ==> IsStep(b, w[i], w[i + 1])
    decreases Remaining(b, pos)
  {
    if pos == b.Final() then
      assert Remaining(b, pos) == 0 by { RemainingBounds(b, pos); }
      [pos]
    else
      assert Remaining(b, pos) >= 1 by { RemainingBounds(b, pos); }
      var next := Next(b, pos, choices[0]);
      assert Remaining(b, next) == Remaining(b, pos) - 1 by { NextNearer(b, pos, choices[0]); }
      var rest := Walk(b, next, choices[1..]);
      var w := [pos] + rest;
      assert forall i :: 0 < i < |w| ==> w[i] == rest[i - 1];
      w
  }

  /** From cell 0 every sequence of 2(side-1) coin tosses gives a complete leader path. */
  lemma WalkFromStart(b: Board, choices: seq<bool>)
    requires b.Valid() && |choices| >= 2 * (b.side - 1)
    ensures IsLeaderPath(b, Walk(b, 0, choices))
    ensures |Walk(b, 0, choices)| == 2 * b.side - 1
  {
    RemainingBounds(b, 0);
  }
}
