/** Two complete rounds on the Easy board (4 × 4), driven through the game's
    callbacks with the coin tosses fixed. */
module Scenarios {
  import opened Board
  import opened Difficulties
  import opened Leader
  import opened Moves
  import opened GameModel

  /** The page with Easy selected. */
  method NewEasyGame() returns (g: Game)
    ensures fresh(g) && g.Valid() && g.phase == Setup && g.board == Board(4, 16)
    ensures g.score == 0 && g.difficulty.startingSpeed == 1.5
  {
    assert Catalog[0] == Difficulty("Easy", 16, 1.5);
    assert Sqrt(16) == 4 by { SqrtOfSquare(4); }
    g := new Game(Catalog[0]);
  }

  /** The first half of a round whose leader goes right at every free choice: it
      marks 0, 1, 2 and steps onto 3. */
  method LeaderAlongTopRow(g: Game)
    requires g.Valid() && g.phase == Setup && g.board == Board(4, 16)
    modifies g
    ensures g.Valid() && fresh(g.trail) && g.phase == LeaderTurn && g.path == [0, 1, 2] && g.leaderPos == 3
    ensures g.score == old(g.score) && g.difficulty == old(g.difficulty)
  {
    g.StartGame(true);
    assert g.path == [0];
    assert g.leaderPos == 1;
    g.LeaderTick(true);
    assert g.path == [0, 1];
    assert g.leaderPos == 2;
    g.LeaderTick(true);
    assert g.path == [0, 1, 2];
  }

  /** The rest of that round: down the right edge whatever the coin says. */
  method LeaderDownRightEdge(g: Game)
    requires g.Valid() && g.phase == LeaderTurn && g.board == Board(4, 16)
    requires g.path == [0, 1, 2] && g.leaderPos == 3
    modifies g, g.trail
    ensures g.Valid() && g.phase == AwaitingPlayer && g.path == [0, 1, 2, 3, 7, 11, 15]
    ensures g.score == old(g.score) && g.difficulty == old(g.difficulty)
  {
    g.LeaderTick(true);
    assert g.path == [0, 1, 2, 3];
    assert g.leaderPos == 7;
    g.LeaderTick(true);
    assert g.path == [0, 1, 2, 3, 7];
    assert g.leaderPos == 11;
    g.LeaderTick(true);
    assert g.path == [0, 1, 2, 3, 7, 11];
    assert g.leaderPos == 15;
    g.LeaderTick(true);
    assert g.path == [0, 1, 2, 3, 7, 11, 15];
  }

  /** The first half of a round whose leader goes down at every free choice: it
      marks 0, 4, 8 and steps onto 12. */
  method LeaderDownLeftEdge(g: Game)
    requires g.Valid() && g.phase == Setup && g.board == Board(4, 16)
    modifies g
    ensures g.Valid() && fresh(g.trail) && g.phase == LeaderTurn && g.path == [0, 4, 8] && g.leaderPos == 12
    ensures g.score == old(g.score) && g.difficulty == old(g.difficulty)
  {
    g.StartGame(false);
    assert g.path == [0];
    assert g.leaderPos == 4;
    g.LeaderTick(false);
    assert g.path == [0, 4];
    assert g.leaderPos == 8;
    g.LeaderTick(false);
    assert g.path == [0, 4, 8];
  }

  /** The rest of that round: along the bottom row whatever the coin says. */
  method LeaderAlongBottomRow(g: Game)
    requires g.Valid() && g.phase == LeaderTurn && g.board == Board(4, 16)
    requires g.path == [0, 4, 8] && g.leaderPos == 12
    modifies g, g.trail
    ensures g.Valid() && g.phase == AwaitingPlayer && g.path == [0, 4, 8, 12, 13, 14, 15]
    ensures g.score == old(g.score) && g.difficulty == old(g.difficulty)
  {
    g.LeaderTick(false);
    assert g.path == [0, 4, 8, 12];
    assert g.leaderPos == 13;
    g.LeaderTick(false);
    assert g.path == [0, 4, 8, 12, 13];
    assert g.leaderPos == 14;
    g.LeaderTick(false);
    assert g.path == [0, 4, 8, 12, 13, 14];
    assert g.leaderPos == 15;
    g.LeaderTick(false);
    assert g.path == [0, 4, 8, 12, 13, 14, 15];
  }

  /** One arrow key press onto a marked cell other than the final one. */
  method PressOntoTrail(g: Game, key: string, target: int)
    requires g.Valid() && g.phase == PlayerTurn
    requires ArrowTarget(g.board, g.playerPos, key) == Some(target)
    requires target != g.board.Final() && 0 <= target < g.trail.Length && g.trail[target]
    modifies g
    ensures g.Valid() && g.phase == PlayerTurn && g.playerPos == target
    ensures g.trail == old(g.trail) && g.path == old(g.path)
    ensures g.score == old(g.score) && g.difficulty == old(g.difficulty)
  {
    g.KeyDown(key);
  }

  /** The player replays the trail 0, 1, 2, 3, 7, 11, 15 with the arrow keys and
      reaches the final cell. */
  method ReplayRightEdge(g: Game)
    requires g.Valid() && g.phase == AwaitingPlayer && g.board == Board(4, 16)
    requires g.path == [0, 1, 2, 3, 7, 11, 15]
    modifies g
    ensures g.Valid() && g.phase == Won
    ensures g.score == old(g.score) && g.difficulty == old(g.difficulty)
  {
    assert g.trail[1] && g.trail[2] && g.trail[3];
    g.BeginPlayerTurn();
    PressOntoTrail(g, "ArrowRight", 1);
    PressOntoTrail(g, "ArrowRight", 2);
    PressOntoTrail(g, "ArrowRight", 3);
    DownToFinal(g);
  }

  /** From cell 3 of the trail 0, 1, 2, 3, 7, 11, 15 the player presses down three
      times and reaches the final cell. */
  method DownToFinal(g: Game)
    requires g.Valid() && g.phase == PlayerTurn && g.board == Board(4, 16)
    requires g.path == [0, 1, 2, 3, 7, 11, 15] && g.playerPos == 3
    modifies g
    ensures g.Valid() && g.phase == Won
    ensures g.score == old(g.score) && g.difficulty == old(g.difficulty)
  {
    assert g.trail[7] && g.trail[11];
    PressOntoTrail(g, "ArrowDown", 7);
    PressOntoTrail(g, "ArrowDown", 11);
    g.KeyDown("ArrowDown");
  }

  /** The player leaves the trail 0, 4, 8, 12, 13, 14, 15 at the second move, stepping
      right from 4 onto the unmarked cell 5, and loses; the key pressed after that
      is ignored. */
  method StrayFromLeftEdge(g: Game)
    requires g.Valid() && g.phase == AwaitingPlayer && g.board == Board(4, 16)
    requires g.path == [0, 4, 8, 12, 13, 14, 15]
    modifies g
    ensures g.Valid() && g.phase == Lost && g.playerPos == 5
    ensures g.score == old(g.score) && g.difficulty == old(g.difficulty)
  {
    assert g.trail[4] && !g.trail[5];
    g.BeginPlayerTurn();
    PressOntoTrail(g, "ArrowDown", 4);
    g.KeyDown("ArrowRight");
    assert g.playerPos == 5 && g.phase == Lost;
    g.KeyDown("ArrowUp");
  }

  /** The round of a leader that goes right at every free choice. */
  method LeaderGoesRight(g: Game)
    requires g.Valid() && g.phase == Setup && g.board == Board(4, 16)
    modifies g
    ensures g.Valid() && g.phase == AwaitingPlayer && g.path == [0, 1, 2, 3, 7, 11, 15]
    ensures g.score == old(g.score) && g.difficulty == old(g.difficulty)
  {
    LeaderAlongTopRow(g);
    LeaderDownRightEdge(g);
  }

  /** The round of a leader that goes down at every free choice. */
  method LeaderGoesDown(g: Game)
    requires g.Valid() && g.phase == Setup && g.board == Board(4, 16)
    modifies g
    ensures g.Valid() && g.phase == AwaitingPlayer && g.path == [0, 4, 8, 12, 13, 14, 15]
    ensures g.score == old(g.score) && g.difficulty == old(g.difficulty)
  {
    LeaderDownLeftEdge(g);
    LeaderAlongBottomRow(g);
  }

  /** A round in which the leader goes right at every free choice and the player
      follows; `marked` is the set of cells the trail marks. */
  method RoundWon(g: Game) returns (marked: set<int>)
    requires g.Valid() && g.phase == Setup && g.board == Board(4, 16)
    modifies g
    ensures marked == {0, 1, 2, 3, 7, 11, 15}
    ensures g.Valid() && g.phase == Won
    ensures g.score == old(g.score) && g.difficulty == old(g.difficulty)
  {
    LeaderGoesRight(g);
    marked := set c | 0 <= c < g.trail.Length && g.trail[c];
    assert forall c :: c in marked <==> c in g.path;
    ReplayRightEdge(g);
  }

  /** The leader goes right at every free choice, leaving the trail
      0, 1, 2, 3, 7, 11, 15; the player replays it with the arrow keys and wins.
      The restart scores the point and shortens the turn from 1.5 to 1.425 seconds. */
  method EasyRoundWon() returns (marked: set<int>, score: nat, speed: real)
    ensures marked == {0, 1, 2, 3, 7, 11, 15}
    ensures score == 1 && speed == 1.425
  {
    var g := NewEasyGame();
    marked := RoundWon(g);
    g.FinishWin(true);
    score := g.score;
    speed := g.difficulty.startingSpeed;
  }

  /** A round in which the leader goes down at every free choice and the player
      strays onto cell 5; `marked` is the set of cells the trail marks. */
  method RoundLost(g: Game) returns (marked: set<int>)
    requires g.Valid() && g.phase == Setup && g.board == Board(4, 16)
    modifies g
    ensures marked == {0, 4, 8, 12, 13, 14, 15}
    ensures g.Valid() && g.phase == Lost && g.playerPos == 5
    ensures g.score == old(g.score) && g.difficulty == old(g.difficulty)
  {
    LeaderGoesDown(g);
    marked := set c | 0 <= c < g.trail.Length && g.trail[c];
    assert forall c :: c in marked <==> c in g.path;
    StrayFromLeftEdge(g);
  }

  /** The leader goes down at every free choice, leaving the trail
      0, 4, 8, 12, 13, 14, 15; the player goes down to 4 and then right onto the
      unmarked cell 5, loses there with the score unchanged, and a later key press
      leaves the player on 5. */
  method EasyRoundLost() returns (marked: set<int>, pos: int, lost: bool, score: nat)
    ensures marked == {0, 4, 8, 12, 13, 14, 15} && pos !in marked
    ensures pos == 5 && lost && score == 0
  {
    var g := NewEasyGame();
    marked := RoundLost(g);
    pos := g.playerPos;
    lost := g.phase == Lost;
    score := g.score;
  }
}
