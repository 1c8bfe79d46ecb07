/** The square game board: `squares` cells numbered 0 .. squares-1 in row-major
    order, `side` cells per row, and the four edge tests the game repeats inline. */
module Board {

  /** Dafny's `/` and `%` on a positive divisor are fixed by quotient and remainder. */
  lemma DivModUnique(x: int, d: int, q: int, r: int)
    requires d > 0 && 0 <= r < d && x == q * d + r
    ensures x / d == q && x % d == r
  {
    var q', r' := x / d, x % d;
    assert x == q' * d + r';
    assert q' * d - q * d == (q' - q) * d;
    if q' > q {
      MulLeft(1, q' - q, d);
      assert false;
    } else if q' < q {
      MulLeft(1, q - q', d);
      assert false;
    }
  }

  lemma MulLeft(a: int, b: int, k: int)
    requires a <= b && k >= 0
    ensures a * k <= b * k
  {
    assert (b - a) * k >= 0;
  }

  /** Integer square root, searched upwards from `k`. */
  function SqrtFrom(n: nat, k: nat): (r: nat)
    requires k * k <= n
    ensures r * r <= n < (r + 1) * (r + 1)
    decreases n - k
  {
    if n < (k + 1) * (k + 1) then k
    else
      MulLeft(1, k + 1, k + 1);
      SqrtFrom(n, k + 1)
  }

  /** `Math.sqrt` of a square count, taken as the floor square root. */
  function Sqrt(n: nat): (r: nat)
    ensures r * r <= n < (r + 1) * (r + 1)
  {
    SqrtFrom(n, 0)
  }

  /** On a perfect square the floor square root is exact. */
  lemma SqrtOfSquare(k: nat)
    ensures Sqrt(k * k) == k
  {
    var r := Sqrt(k * k);
    if r < k {
      MulLeft(r + 1, k, r + 1);
      MulLeft(r + 1, k, k);
      assert false;
    } else if r > k {
      MulLeft(k + 1, r, k + 1);
      MulLeft(k + 1, r, r);
      assert false;
    }
  }

  /** The board of one round: `side` cells per row and `squares` cells in all. */
  datatype Board = Board(side: nat, squares: nat) {

    predicate Valid() {
      side >= 2 && squares == side * side
    }

    /** The goal cell, bottom right. */
    function Final(): int {
      squares - 1
    }

    predicate OnBoard(pos: int) {
      0 <= pos < squares
    }

    predicate IsRightEdge(pos: int)
      requires Valid()
    {
      pos % side == side - 1
    }

    predicate IsLeftEdge(pos: int)
      requires Valid()
    {
      pos % side == 0
    }

    predicate IsBottomRow(pos: int)
      requires Valid()
    {
      pos >= squares - side
    }

    predicate IsTopRow(pos: int)
      requires Valid()
    {
      pos < side
    }

    function Row(pos: int): int
      requires Valid()
    {
      pos / side
    }

    function Col(pos: int): int
      requires Valid()
    {
      pos % side
    }

    /** The cell at a row and a column. */
    function Cell(row: int, col: int): int
      requires Valid()
    {
      row * side + col
    }
  }

  /** Every cell of the board sits at a row and a column inside the grid. */
  lemma CoordsOf(b: Board, pos: int)
    requires b.Valid() && b.OnBoard(pos)
    ensures 0 <= b.Row(pos) < b.side && 0 <= b.Col(pos) < b.side
    ensures b.Cell(b.Row(pos), b.Col(pos)) == pos
  {
    QuotientAtLeast(pos, b.side, 0);
    QuotientAtLeast(pos, b.side, b.side);
  }

  /** Every row and column inside the grid names one cell of the board, and gives them back. */
  lemma CellAt(b: Board, row: int, col: int)
    requires b.Valid() && 0 <= row < b.side && 0 <= col < b.side
    ensures b.OnBoard(b.Cell(row, col))
    ensures b.Row(b.Cell(row, col)) == row && b.Col(b.Cell(row, col)) == col
  {
    MulLeft(row, b.side - 1, b.side);
    MulLeft(0, row, b.side);
    assert (b.side - 1) * b.side == b.squares - b.side;
    DivModUnique(b.Cell(row, col), b.side, row, col);
  }

  /** The four inline edge tests say what they mean in grid coordinates. */
  lemma EdgesAt(b: Board, pos: int)
    requires b.Valid() && b.OnBoard(pos)
    ensures b.IsRightEdge(pos) <==> b.Col(pos) == b.side - 1
    ensures b.IsLeftEdge(pos) <==> b.Col(pos) == 0
    ensures b.IsBottomRow(pos) <==> b.Row(pos) == b.side - 1
    ensures b.IsTopRow(pos) <==> b.Row(pos) == 0
  {
    CoordsOf(b, pos);
    QuotientAtLeast(pos, b.side, b.side - 1);
    QuotientAtLeast(pos, b.side, 1);
    assert (b.side - 1) * b.side == b.squares - b.side;
  }

  /** The final cell is the one in the last row and the last column. */
  lemma FinalAt(b: Board, pos: int)
    requires b.Valid() && b.OnBoard(pos)
    ensures pos == b.Final() <==> b.Row(pos) == b.side - 1 && b.Col(pos) == b.side - 1
  {
    CoordsOf(b, pos);
    CellAt(b, b.side - 1, b.side - 1);
    assert b.Cell(b.side - 1, b.side - 1) == b.Final();
  }

  /** A step right from any column but the last stays in its row. */
  lemma StepRight(b: Board, pos: int)
    requires b.Valid() && b.OnBoard(pos) && b.Col(pos) < b.side - 1
    ensures b.OnBoard(pos + 1) && b.Row(pos + 1) == b.Row(pos) && b.Col(pos + 1) == b.Col(pos) + 1
  {
    ShiftRight(pos, b.side);
    CoordsOf(b, pos);
    assert pos + 1 != b.squares by { FinalAt(b, pos); }
  }

  /** A step left from any column but the first stays in its row. */
  lemma StepLeft(b: Board, pos: int)
    requires b.Valid() && b.OnBoard(pos) && b.Col(pos) > 0
    ensures b.OnBoard(pos - 1) && b.Row(pos - 1) == b.Row(pos) && b.Col(pos - 1) == b.Col(pos) - 1
  {
    ShiftLeft(pos, b.side);
  }

  /** A step down from any row but the last stays in its column. */
  lemma StepDown(b: Board, pos: int)
    requires b.Valid() && b.OnBoard(pos) && b.Row(pos) < b.side - 1
    ensures b.OnBoard(pos + b.side) && b.Row(pos + b.side) == b.Row(pos) + 1 && b.Col(pos + b.side) == b.Col(pos)
  {
    ShiftDown(pos, b.side);
    assert b.Row(pos) != b.side - 1;
    assert !b.IsBottomRow(pos) by { EdgesAt(b, pos); }
  }

  /** A step up from any row but the first stays in its column. */
  lemma StepUp(b: Board, pos: int)
    requires b.Valid() && b.OnBoard(pos) && b.Row(pos) > 0
    ensures b.OnBoard(pos - b.side) && b.Row(pos - b.side) == b.Row(pos) - 1 && b.Col(pos - b.side) == b.Col(pos)
  {
    ShiftUp(pos, b.side);
    assert !b.IsTopRow(pos) by { EdgesAt(b, pos); }
  }

  /** The edge tests guard exactly the moves that would leave the board. */
  lemma GuardedMovesStayOnBoard(b: Board, pos: int)
    requires b.Valid() && b.OnBoard(pos)
    ensures !b.IsRightEdge(pos) ==> b.OnBoard(pos + 1)
    ensures !b.IsLeftEdge(pos) ==> b.OnBoard(pos - 1)
    ensures !b.IsBottomRow(pos) ==> b.OnBoard(pos + b.side)
    ensures !b.IsTopRow(pos) ==> b.OnBoard(pos - b.side)
  {
    if !b.IsRightEdge(pos) {
      assert b.Col(pos) < b.side - 1 by { EdgesAt(b, pos); CoordsOf(b, pos); }
      StepRight(b, pos);
    }
  }

  /** For a non-negative `x`, the quotient `x / d` reaches `k` exactly when `x` reaches `k * d`. */
  lemma QuotientAtLeast(x: int, d: int, k: int)
    requires x >= 0 && d > 0
    ensures x / d >= k <==> x >= k * d
  {
    var q, r := x / d, x % d;
    assert x == q * d + r && 0 <= r < d;
    if q >= k {
      MulLeft(k, q, d);
    } else {
      MulLeft(q + 1, k, d);
      assert (q + 1) * d == q * d + d;
    }
  }

  /** Adding one outside the last column keeps the quotient and bumps the remainder. */
  lemma ShiftRight(x: int, d: int)
    requires d > 0 && x % d < d - 1
    ensures (x + 1) / d == x / d && (x + 1) % d == x % d + 1
  {
    DivModUnique(x + 1, d, x / d, x % d + 1);
  }

  /** Subtracting one outside the first column keeps the quotient and lowers the remainder. */
  lemma ShiftLeft(x: int, d: int)
    requires d > 0 && x % d > 0
    ensures (x - 1) / d == x / d && (x - 1) % d == x % d - 1
  {
    DivModUnique(x - 1, d, x / d, x % d - 1);
  }

  /** Adding the divisor bumps the quotient and keeps the remainder. */
  lemma ShiftDown(x: int, d: int)
    requires d > 0
    ensures (x + d) / d == x / d + 1 && (x + d) % d == x % d
  {
    assert (x / d + 1) * d == (x / d) * d + d;
    DivModUnique(x + d, d, x / d + 1, x % d);
  }

  /** Subtracting the divisor lowers the quotient and keeps the remainder. */
  lemma ShiftUp(x: int, d: int)
    requires d > 0
    ensures (x - d) / d == x / d - 1 && (x - d) % d == x % d
  {
    assert (x / d - 1) * d == (x / d) * d - d;
    DivModUnique(x - d, d, x / d - 1, x % d);
  }
}
