/** The game's state machine: the module-level state of the page, updated in place
    by one method per scheduled callback or input handler. */
module GameModel {
  import opened Board
  import opened Difficulties
  import opened Leader
  import opened Moves

  /** Which callback the game is waiting for. */
  datatype Phase =
    | Setup           // no round in play: `startGame` runs next
    | LeaderTurn      // the next `leadersTurn` tick is pending
    | AwaitingPlayer  // the leader stands on the final cell; `playersTurn` is pending
    | PlayerTurn      // moves are accepted
    | Won             // the player reached the final cell; the restart is pending
    | Lost            // the lose screen is shown; nothing is pending

  /** The phase a verdict of `winOrLose` leaves the game in. */
  function PhaseAfter(o: Outcome): Phase {
    match o
    case Win => Won
    case Lose => Lost
    case Continue => PlayerTurn
  }

  class Game {
    /** The catalog entry as it was selected. */
    const entry: Difficulty
    const board: Board
    /** The selected entry, its `startingSpeed` decayed once per won round. */
    var difficulty: Difficulty
    var leaderPos: int
    var playerPos: int
    /** The `data-path` marker of each square of the current board. */
    var trail: array<bool>
    var score: nat
    var movementEnabled: bool
    var phase: Phase
    /** The cells the leader has marked this round, in the order it marked them. */
    ghost var path: seq<int>

    /** The trail marks exactly the cells of `p`. */
    ghost predicate Marks(p: seq<int>)
      reads this, trail
    {
      forall c :: 0 <= c < trail.Length ==> (trail[c] <==> c in p)
    }

    /** The leader has walked from cell 0 to the final cell and waits there. */
    ghost predicate PathComplete()
      reads this
      requires board.Valid()
    {
      IsLeaderPath(board, path) && path[|path| - 1] == board.Final() && leaderPos == board.Final()
    }

    ghost predicate Valid()
      reads this, trail
    {
      WellFormed(entry) && board == BoardOf(entry) &&
      difficulty == AfterWins(entry, score) &&
      board.OnBoard(leaderPos) && board.OnBoard(playerPos) &&
      (phase != Setup ==> trail.Length == board.squares && Marks(path)) &&
      match phase
      case Setup => leaderPos == 0 && playerPos == 0 && !movementEnabled
      case LeaderTurn => playerPos == 0 && !movementEnabled && IsLeaderPath(board, path + [leaderPos])
      case AwaitingPlayer => playerPos == 0 && !movementEnabled && PathComplete()
      case PlayerTurn => movementEnabled && PathComplete() && trail[playerPos] && playerPos != board.Final()
      case Won => movementEnabled && PathComplete() && playerPos == board.Final()
      case Lost => !movementEnabled && PathComplete() && !trail[playerPos]
    }

    /** The page as loaded with difficulty `d` chosen: no squares yet, both characters
        on cell 0, score 0, movement off. */
    constructor (d: Difficulty)
      requires WellFormed(d)
      ensures Valid() && phase == Setup
      ensures entry == d && difficulty == d && board == BoardOf(d)
      ensures score == 0 && leaderPos == 0 && playerPos == 0 && !movementEnabled
    {
      entry := d;
      board := BoardOf(d);
      difficulty := d;
      leaderPos, playerPos := 0, 0;
      trail := new bool[0];
      score := 0;
      movementEnabled := false;
      phase := Setup;
      path := [];
    }

    /** `generateSquares`: a fresh board of `squares` cells, none of them marked. */
    method GenerateSquares()
      requires Valid() && phase == Setup
      modifies this
      ensures Valid() && fresh(trail) && trail.Length == board.squares
      ensures forall c :: 0 <= c < trail.Length ==> !trail[c]
      ensures difficulty == old(difficulty) && leaderPos == old(leaderPos) && playerPos == old(playerPos)
      ensures score == old(score) && movementEnabled == old(movementEnabled) && phase == old(phase)
      ensures path == old(path)
    {
      var squares := new bool[board.squares];
      var i := 0;
      while i < squares.Length
        modifies squares
        invariant 0 <= i <= squares.Length
        invariant forall c :: 0 <= c < i ==> !squares[c]
      {
        squares[i] := false;
        i := i + 1;
      }
      trail := squares;
    }

    /** `startGame`: builds the board and runs the first `leadersTurn` tick, which
        marks cell 0 and makes the leader's first move. */
    method StartGame(goRight: bool)
      requires Valid() && phase == Setup
      modifies this
      ensures Valid() && fresh(trail)
      ensures phase == LeaderTurn && path == [0] && leaderPos == Next(board, 0, goRight)
      ensures forall c :: 0 <= c < trail.Length ==> (trail[c] <==> c == 0)
      ensures playerPos == 0 && !movementEnabled
      ensures score == old(score) && difficulty == old(difficulty)
    {
      GenerateSquares();
      path := [];
      phase := LeaderTurn;
      LeaderTick(goRight);
    }

    /** One `leadersTurn` tick: the leader's cell is marked; then the leader either
        makes its move (`determineLeaderPosition`) or, on the final cell, stays and
        hands over to the player. */
    method LeaderTick(goRight: bool)
      requires Valid() && phase == LeaderTurn
      modifies this, trail
      ensures Valid() && trail == old(trail)
      ensures trail[..] == old(trail[..])[old(leaderPos) := true]
      ensures path == old(path) + [old(leaderPos)]
      ensures if old(leaderPos) == board.Final()
              then leaderPos == old(leaderPos) && phase == AwaitingPlayer
              else leaderPos == Next(board, old(leaderPos), goRight) && phase == LeaderTurn
      ensures !movementEnabled && playerPos == old(playerPos)
      ensures score == old(score) && difficulty == old(difficulty)
    {
      trail[leaderPos] := true;
      path := path + [leaderPos];
      if leaderPos == board.Final() {
        phase := AwaitingPlayer;
      } else {
        ExtendPath(board, path, goRight);
        movementEnabled := false;
        leaderPos := Next(board, leaderPos, goRight);
      }
    }

    /** `playersTurn`: input is switched on. By now the leader has made exactly
        2(side-1) moves. */
    method BeginPlayerTurn()
      requires Valid() && phase == AwaitingPlayer
      modifies this
      ensures Valid() && phase == PlayerTurn && movementEnabled
      ensures |path| == 2 * board.side - 1
      ensures path == old(path) && trail == old(trail)
      ensures leaderPos == old(leaderPos) && playerPos == old(playerPos)
      ensures score == old(score) && difficulty == old(difficulty)
    {
      PathLength(board, path);
      movementEnabled := true;
      phase := PlayerTurn;
    }

    /** `updateCharacterPosition` for the player, then `winOrLose`: the final cell wins,
        any other unmarked cell loses and switches movement off, a marked cell
        continues the turn. */
    method MovePlayer(move: int)
      requires Valid() && phase == PlayerTurn && board.OnBoard(playerPos + move)
      modifies this
      ensures Valid()
      ensures leaderPos == old(leaderPos) && path == old(path) && trail == old(trail)
      ensures score == old(score) && difficulty == old(difficulty)
      ensures playerPos == old(playerPos) + move
      ensures phase == PhaseAfter(Judge(board, playerPos, trail[playerPos]))
      ensures movementEnabled == (phase != Lost)
    {
      playerPos := playerPos + move;
      match Judge(board, playerPos, trail[playerPos])
      case Win =>
        phase := Won;
      case Lose =>
        movementEnabled := false;
        phase := Lost;
      case Continue =>
    }

    /** The player's position, the phase and the movement flag are as they were. */
    twostate predicate Unmoved()
      reads this
    {
      playerPos == old(playerPos) && phase == old(phase) && movementEnabled == old(movementEnabled)
    }

    /** `keyboardMovement`: ignored on the final cell, while movement is off, and for
        a key that is not an arrow or would cross an edge; otherwise one move. */
    method KeyDown(key: string)
      requires Valid()
      modifies this
      ensures Valid()
      ensures trail == old(trail) && leaderPos == old(leaderPos) && path == old(path)
      ensures score == old(score) && difficulty == old(difficulty)
      ensures old(phase) != PlayerTurn ==> Unmoved()
      ensures (old(playerPos) == board.Final() || !old(movementEnabled) ||
               ArrowMove(board, old(playerPos), key).None?) ==> Unmoved()
      ensures old(phase) == PlayerTurn && ArrowMove(board, old(playerPos), key).Some? ==>
        playerPos == old(playerPos) + ArrowMove(board, old(playerPos), key).value &&
        phase == PhaseAfter(Judge(board, playerPos, trail[playerPos])) &&
        movementEnabled == (phase != Lost)
    {
      if playerPos != board.Final() {
        if !movementEnabled {
          return;
        }
        var m := ArrowMove(board, playerPos, key);
        if m.Some? {
          MovePlayer(m.value);
        }
      }
    }

    /** `mouseMovement` on the clickable squares: a click on one of `ClickTargets`
        during the player's turn moves there, any other click does nothing. */
    method Click(target: int)
      requires Valid()
      modifies this
      ensures Valid()
      ensures trail == old(trail) && leaderPos == old(leaderPos) && path == old(path)
      ensures score == old(score) && difficulty == old(difficulty)
      ensures old(phase) != PlayerTurn || target !in ClickTargets(board, old(playerPos)) ==> Unmoved()
      ensures old(phase) == PlayerTurn && target in ClickTargets(board, old(playerPos)) ==>
        playerPos == target &&
        phase == PhaseAfter(Judge(board, target, trail[target])) &&
        movementEnabled == (phase != Lost)
    {
      if phase == PlayerTurn && target in ClickTargets(board, playerPos) {
        MovePlayer(ClickMove(board, playerPos, target));
      }
    }

    /** The restart scheduled by `playerWins`: one more point, then `startNewRound`:
        both characters back on cell 0, the speed decayed once, movement off, and a
        fresh board on which `startGame` runs the first leader tick. */
    method FinishWin(goRight: bool)
      requires Valid() && phase == Won
      modifies this
      ensures Valid() && fresh(trail)
      ensures score == old(score) + 1 && difficulty == Decayed(old(difficulty))
      ensures playerPos == 0 && !movementEnabled
      ensures phase == LeaderTurn && path == [0] && leaderPos == Next(board, 0, goRight)
      ensures forall c :: 0 <= c < trail.Length ==> (trail[c] <==> c == 0)
    {
      score := score + 1;
      leaderPos := 0;
      playerPos := 0;
      DecayedAfterWins(entry, score - 1);
      difficulty := Decayed(difficulty);
      movementEnabled := false;
      phase := Setup;
      StartGame(goRight);
    }
  }
}
