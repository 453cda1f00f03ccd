/** The board, the car's heading and the commands of the car game. */
module Grid {

  /** Side length of the square board (BOARD_SIZE). */
  const BOARD_SIZE: int := 5

  /** A board cell [x, y]; x grows to the East, y grows to the South. */
  datatype Cell = Cell(x: int, y: int)

  predicate OnBoard(c: Cell) {
    0 <= c.x < BOARD_SIZE && 0 <= c.y < BOARD_SIZE
  }

  /** The Direction enum: ordinals in clockwise order. */
  type Direction = d: int | 0 <= d < 4

  const North: Direction := 0
  const East: Direction := 1
  const South: Direction := 2
  const West: Direction := 3

  datatype Command = Forward | Left | Right

  datatype GameMode = Basic | PickFood | Obstacles

  /** Counter-clockwise quarter turn. */
  function TurnLeft(d: Direction): Direction {
    (d + 3) % 4
  }

  /** Clockwise quarter turn. */
  function TurnRight(d: Direction): Direction {
    (d + 1) % 4
  }

  function Max(a: int, b: int): int {
    if a >= b then a else b
  }

  function Min(a: int, b: int): int {
    if a <= b then a else b
  }

  /** The cell one step ahead of c, ignoring the board's edges. */
  function Neighbour(c: Cell, d: Direction): Cell {
    if d == North then Cell(c.x, c.y - 1)
    else if d == East then Cell(c.x + 1, c.y)
    else if d == South then Cell(c.x, c.y + 1)
    else Cell(c.x - 1, c.y)
  }

  /** The car stands on the edge of the board and looks over it. */
  predicate FacesEdge(c: Cell, d: Direction) {
    || (d == North && c.y == 0)
    || (d == East && c.x == BOARD_SIZE - 1)
    || (d == South && c.y == BOARD_SIZE - 1)
    || (d == West && c.x == 0)
  }

  /** The clamped forward step: one cell ahead, each coordinate kept
      within 0 .. BOARD_SIZE - 1. It stays put exactly when the car faces
      the edge, and otherwise is the plain neighbour. */
  function Advance(c: Cell, d: Direction): (r: Cell)
    ensures OnBoard(c) ==> OnBoard(r)
    ensures OnBoard(c) ==> (r == c <==> FacesEdge(c, d))
    ensures OnBoard(c) && !FacesEdge(c, d) ==> r == Neighbour(c, d)
  {
    if d == North then Cell(c.x, Max(0, c.y - 1))
    else if d == East then Cell(Min(BOARD_SIZE - 1, c.x + 1), c.y)
    else if d == South then Cell(c.x, Min(BOARD_SIZE - 1, c.y + 1))
    else Cell(Max(0, c.x - 1), c.y)
  }

  /** A left turn undoes a right turn and vice versa. */
  lemma TurnsAreInverse(d: Direction)
    ensures TurnLeft(TurnRight(d)) == d
    ensures TurnRight(TurnLeft(d)) == d
  {
  }

  /** Four identical quarter turns face the car the way it started. */
  lemma FourTurnsAreIdentity(d: Direction)
    ensures TurnLeft(TurnLeft(TurnLeft(TurnLeft(d)))) == d
    ensures TurnRight(TurnRight(TurnRight(TurnRight(d)))) == d
  {
    // The case split keeps the modular arithmetic cheap for the solver.
    assert d == North || d == East || d == South || d == West;
  }

  /** Right turns run clockwise through North, East, South, West. */
  lemma RightTurnsAreClockwise()
    ensures TurnRight(North) == East && TurnRight(East) == South
    ensures TurnRight(South) == West && TurnRight(West) == North
    ensures TurnLeft(North) == West
  {
  }
}
