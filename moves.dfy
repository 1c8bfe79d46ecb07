/** The player's moves: arrow keys on wide screens, clicks on the right or lower
    neighbour on narrow ones, and the verdict after each move. */
module Moves {
  import opened Board
  import opened Leader

  datatype Option<T> = None | Some(value: T)

  /** The move an arrow key makes from `pos`: +1, -1, +side or -side; None when the
      key is not one of the four arrows or the move would cross the edge it points at. */
  function ArrowMove(b: Board, pos: int, key: string): (m: Option<int>)
    requires b.Valid() && b.OnBoard(pos)
    ensures m.Some? ==> b.OnBoard(pos + m.value)
    ensures m.Some? ==> m.value in {1, -1, b.side as int, -(b.side as int)}
  {
    GuardedMovesStayOnBoard(b, pos);
    if key == "ArrowRight" then
      if b.IsRightEdge(pos) then None else Some(1)
    else if key == "ArrowLeft" then
      if b.IsLeftEdge(pos) then None else Some(-1)
    else if key == "ArrowDown" then
      if b.IsBottomRow(pos) then None else Some(b.side)
    else if key == "ArrowUp" then
      if b.IsTopRow(pos) then None else Some(-(b.side as int))
    else
      None
  }

  /** The cell an arrow key takes the player to, when it moves the player at all. */
  function ArrowTarget(b: Board, pos: int, key: string): Option<int>
    requires b.Valid() && b.OnBoard(pos)
  {
    match ArrowMove(b, pos, key)
    case None => None
    case Some(m) => Some(pos + m)
  }

  /** Row and column offsets of the four arrow keys. */
  function Offset(key: string): Option<(int, int)> {
    if key == "ArrowRight" then Some((0, 1))
    else if key == "ArrowLeft" then Some((0, -1))
    else if key == "ArrowDown" then Some((1, 0))
    else if key == "ArrowUp" then Some((-1, 0))
    else None
  }

  /** The grid neighbour in the key's direction, when there is one. */
  function GridNeighbour(b: Board, pos: int, key: string): Option<int>
    requires b.Valid()
  {
    match Offset(key)
    case None => None
    case Some((dr, dc)) =>
      var r, c := b.Row(pos) + dr, b.Col(pos) + dc;
      if 0 <= r < b.side && 0 <= c < b.side then Some(b.Cell(r, c)) else None
  }

  /** The modulo and range tests of the key handler find exactly the grid neighbour
      in the key's direction, and ignore the key where the grid has none. */
  lemma ArrowTargetIsGridNeighbour(b: Board, pos: int, key: string)
    requires b.Valid() && b.OnBoard(pos)
    ensures ArrowTarget(b, pos, key) == GridNeighbour(b, pos, key)
  {
    EdgesAt(b, pos);
    CoordsOf(b, pos);
    var r, c := b.Row(pos), b.Col(pos);
    assert b.Cell(r + 1, c) == pos + b.side;
    assert b.Cell(r - 1, c) == pos - b.side;
  }

  /** The cells a click can move the player to: none on the final cell, only the
      right neighbour on the bottom row, only the lower one on the right edge, both
      elsewhere. */
  function ClickTargets(b: Board, pos: int): (ts: set<int>)
    requires b.Valid() && b.OnBoard(pos)
    ensures forall t :: t in ts ==> b.OnBoard(t) && IsStep(b, pos, t)
    ensures ts == {} <==> pos == b.Final()
  {
    if pos == b.Final() then {}
    else
      MoveRoom(b, pos);
      if b.IsBottomRow(pos) then
        StepFacts(b, pos, pos + 1);
        {pos + 1}
      else if b.IsRightEdge(pos) then
        StepFacts(b, pos, pos + b.side);
        {pos + b.side}
      else
        StepFacts(b, pos, pos + 1);
        StepFacts(b, pos, pos + b.side);
        {pos + 1, pos + b.side}
  }

  /** The clickable cells are exactly the cells the leader could have moved to from
      the same cell, so a player clicking along the trail can always follow it. */
  lemma ClickTargetsAreLeaderMoves(b: Board, pos: int)
    requires b.Valid() && b.OnBoard(pos) && pos != b.Final()
    ensures ClickTargets(b, pos) == {Next(b, pos, true), Next(b, pos, false)}
  {
    MoveRoom(b, pos);
    NextChoosesSteps(b, pos, Next(b, pos, true));
    NextChoosesSteps(b, pos, Next(b, pos, false));
    forall t | t in ClickTargets(b, pos)
      ensures t == Next(b, pos, true) || t == Next(b, pos, false)
    {
      NextChoosesSteps(b, pos, t);
    }
  }

  /** The move a click makes: one to the right when the right neighbour was clicked,
      one row down for any other clickable cell. */
  function ClickMove(b: Board, pos: int, target: int): (move: int)
    requires b.Valid() && b.OnBoard(pos)
    ensures target in ClickTargets(b, pos) ==> pos + move == target
  {
    if target == pos + 1 then 1 else b.side
  }

  /** A leader step can be replayed by a click and by an arrow key. */
  lemma LeaderStepIsPlayable(b: Board, p: int, q: int)
    requires b.Valid() && IsStep(b, p, q)
    ensures q in ClickTargets(b, p)
    ensures ArrowTarget(b, p, if q == p + 1 then "ArrowRight" else "ArrowDown") == Some(q)
  {
    MoveRoom(b, p);
  }

  /** What `winOrLose` decides after a move. */
  datatype Outcome = Win | Lose | Continue

  /** The final cell wins whether or not it is marked; any other unmarked cell loses. */
  function Judge(b: Board, pos: int, marked: bool): (o: Outcome)
    ensures o == Win <==> pos == b.Final()
    ensures o == Lose <==> pos != b.Final() && !marked
    ensures o == Continue <==> pos != b.Final() && marked
  {
    if pos == b.Final() then Win
    else if !marked then Lose
    else Continue
  }
}
