/**
 * The on-screen board: the conversion between board coordinates and the
 * pixel at the centre of a cell, the clamped inverse used for clicks, and
 * the reset that clears the placed pieces, the win line and the drop
 * animation before restarting the game session.
 */
module BoardView {
  import opened Wrappers
  import GameCore

  /** Python's round() of a float: to the nearest integer, halves to the even neighbour. */
  function RoundHalfEven(r: real): (n: int)
    ensures n as real - 0.5 <= r <= n as real + 0.5
  {
    var f := r.Floor;
    var d := r - f as real;
    if d < 0.5 then f
    else if d > 0.5 then f + 1
    else if f % 2 == 0 then f
    else f + 1
  }

  /** A whole number rounds to itself. */
  lemma RoundWhole(n: int)
    ensures RoundHalfEven(n as real) == n
  {
    assert (n as real).Floor == n;
  }

  /** max(lo, min(hi, v)). */
  function Clamp(v: int, lo: int, hi: int): (c: int)
    ensures lo <= hi ==> lo <= c <= hi
    ensures lo <= v <= hi ==> c == v
  {
    if hi < v then (if lo > hi then lo else hi)
    else if lo > v then lo
    else v
  }

  /** A stone as drawn: its pixel position, colour, radius and 3D shading flag. */
  datatype Piece = Piece(x: int, y: int, color: int, size: int, has3d: bool)

  class Board {
    /** The pixel position of the board's top-left corner. */
    var x: int
    var y: int
    var size: int
    var cellSize: int
    const core: GameCore.GameCore
    var pieces: map<(int, int), Piece>
    var winLine: seq<(int, int)>
    var animating: bool
    var animationPiece: Option<Piece>
    var animationProgress: int
    var animationSpeed: int

    /** A board at (x, y) driving the given game session, with nothing placed and no animation. */
    constructor (x: int, y: int, size: int, cellSize: int, core: GameCore.GameCore)
      ensures this.x == x && this.y == y && this.size == size && this.cellSize == cellSize && this.core == core
      ensures pieces == map[] && winLine == [] && !animating && animationPiece == None
      ensures animationProgress == 0 && animationSpeed == 5
    {
      this.x := x;
      this.y := y;
      this.size := size;
      this.cellSize := cellSize;
      this.core := core;
      pieces := map[];
      winLine := [];
      animating := false;
      animationPiece := None;
      animationProgress := 0;
      animationSpeed := 5;
    }

    /** The centre pixel of cell (boardX, boardY): the column boardY gives the screen x, the row boardX the screen y. */
    function BoardToScreen(boardX: int, boardY: int): (p: (int, int))
      reads this
      ensures cellSize > 0 ==>
        && x + boardY * cellSize <= p.0 < x + boardY * cellSize + cellSize
        && y + boardX * cellSize <= p.1 < y + boardX * cellSize + cellSize
    {
      (x + boardY * cellSize + cellSize / 2, y + boardX * cellSize + cellSize / 2)
    }

    /** The cell a pixel is nearest to along one axis, before clamping. */
    function NearestCell(offset: int): real
      reads this
      requires cellSize > 0
    {
      (offset - cellSize / 2) as real / cellSize as real
    }

    /**
     * The board cell nearest to a pixel, clamped onto the board: the row
     * from the screen y, the column from the screen x.  Each coordinate is
     * the rounded nearest cell when that lies on the board.
     */
    function ScreenToBoard(sx: int, sy: int): (c: (int, int))
      reads this
      requires cellSize > 0
      ensures 0 <= c.0 && 0 <= c.1
      ensures size >= 1 ==> c.0 <= size - 1 && c.1 <= size - 1
      ensures 0 <= RoundHalfEven(NearestCell(sy - y)) < size ==>
        c.0 == RoundHalfEven(NearestCell(sy - y)) &&
        c.0 as real - 0.5 <= NearestCell(sy - y) <= c.0 as real + 0.5
      ensures 0 <= RoundHalfEven(NearestCell(sx - x)) < size ==>
        c.1 == RoundHalfEven(NearestCell(sx - x)) &&
        c.1 as real - 0.5 <= NearestCell(sx - x) <= c.1 as real + 0.5
    {
      (Clamp(RoundHalfEven(NearestCell(sy - y)), 0, size - 1),
       Clamp(RoundHalfEven(NearestCell(sx - x)), 0, size - 1))
    }

    /** Clicking the centre of a cell on the board selects that cell. */
    lemma ScreenToBoardRoundTrip(boardX: int, boardY: int)
      requires cellSize > 0 && 0 <= boardX < size && 0 <= boardY < size
      ensures ScreenToBoard(BoardToScreen(boardX, boardY).0, BoardToScreen(boardX, boardY).1) == (boardX, boardY)
    {
      var p := BoardToScreen(boardX, boardY);
      CellCentre(boardX);
      CellCentre(boardY);
      assert p.1 - y == boardX * cellSize + cellSize / 2;
      assert p.0 - x == boardY * cellSize + cellSize / 2;
    }

    lemma CellCentre(b: int)
      requires cellSize > 0
      ensures RoundHalfEven(NearestCell(b * cellSize + cellSize / 2)) == b
    {
      var c := cellSize as real;
      assert (b * cellSize) as real == b as real * c;
      assert (b as real * c) / c == b as real;
      RoundWhole(b);
    }

    /** reset: no pieces, no win line, no animation, and the game session reset. */
    method Reset()
      requires core.Valid()
      modifies this, core`board, core`moveHistory, core`gameActive, core`currentPlayer, core`gameResult, core`evalCache
      ensures core.Valid()
      ensures pieces == map[] && winLine == [] && !animating && animationPiece == None
      ensures core.Snapshot() == GameCore.Fresh(core.boardSize, old(core.emitted)) && core.evalCache == map[]
      ensures x == old(x) && y == old(y) && size == old(size) && cellSize == old(cellSize)
      ensures animationProgress == old(animationProgress) && animationSpeed == old(animationSpeed)
    {
      pieces := map[];
      winLine := [];
      animating := false;
      animationPiece := None;
      core.ResetGame();
    }
  }
}
