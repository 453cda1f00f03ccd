/** The board generator of the car game: rejection sampling over a
    supplied sequence of Math.random() draws. */
module Generator {
  import opened Grid

  datatype Option<T> = None | Some(value: T)

  /** A value Math.random() can return: a number in [0, 1). */
  type Unit = r: real | 0.0 <= r < 1.0

  /** Math.floor(r * n): a uniform integer in 0 .. n - 1. */
  function RandomBelow(r: Unit, n: nat): (k: int)
    requires n > 0
    ensures 0 <= k < n
  {
    var scaled := r * (n as real);
    assert 0.0 <= scaled < n as real by {
      assert r * (n as real) < 1.0 * (n as real);
    }
    scaled.Floor
  }

  /** The cell [floor(random * 5), floor(random * 5)] made of draws p and
      p + 1; the x coordinate is drawn first. */
  function DrawCell(rng: seq<Unit>, p: nat): (c: Cell)
    requires p + 2 <= |rng|
    ensures OnBoard(c)
  {
    Cell(RandomBelow(rng[p], BOARD_SIZE), RandomBelow(rng[p + 1], BOARD_SIZE))
  }

  /** One do…while rejection loop started at draw p: the first drawn cell
      that is not in avoid, with the index of the next unused draw; None
      when the draws run out before one is accepted. */
  function FirstFree(rng: seq<Unit>, p: nat, avoid: seq<Cell>): (r: Option<(Cell, nat)>)
    ensures r.Some? ==> p + 2 <= r.value.1 <= |rng| && OnBoard(r.value.0) && r.value.0 !in avoid
    decreases |rng| - p
  {
    if p + 2 > |rng| then None
    else
      var c := DrawCell(rng, p);
      if c !in avoid then Some((c, p + 2))
      else
        FirstFree(rng, p + 2, avoid)
  }

  /** The rejection loop accepts the first drawn cell outside avoid, and
      gives up only when every remaining draw lands in avoid. */
  lemma {:induction false} FirstFreeIsFirstAccepted(rng: seq<Unit>, p: nat, avoid: seq<Cell>)
    ensures var r := FirstFree(rng, p, avoid);
      && (r.Some? ==>
            && (r.value.1 - p) % 2 == 0
            && r.value.0 == DrawCell(rng, r.value.1 - 2)
            && forall k :: p <= k < r.value.1 - 2 && (k - p) % 2 == 0 ==> DrawCell(rng, k) in avoid)
      && (r.None? ==>
            forall k :: p <= k && k + 2 <= |rng| && (k - p) % 2 == 0 ==> DrawCell(rng, k) in avoid)
    decreases |rng| - p
  {
    if p + 2 <= |rng| && DrawCell(rng, p) in avoid {
      FirstFreeIsFirstAccepted(rng, p + 2, avoid);
    }
  }

  /** Cells that are on the board, pairwise distinct and none in fixed. */
  predicate Spread(cells: seq<Cell>, fixed: seq<Cell>) {
    && (forall k :: 0 <= k < |cells| ==> OnBoard(cells[k]) && cells[k] !in fixed)
    && (forall j, k :: 0 <= j < k < |cells| ==> cells[j] != cells[k])
  }

  /** The `for` loop that pushes count more cells onto placed, each drawn by
      a rejection loop that avoids fixed and everything placed so far. */
  function PlaceMany(rng: seq<Unit>, p: nat, count: nat, fixed: seq<Cell>, placed: seq<Cell>): (r: Option<(seq<Cell>, nat)>)
    ensures r.Some? ==> |r.value.0| == |placed| + count && r.value.0[..|placed|] == placed && p <= r.value.1
    ensures r.Some? && Spread(placed, fixed) ==> Spread(r.value.0, fixed)
    decreases count
  {
    if count == 0 then Some((placed, p))
    else
      match FirstFree(rng, p, fixed + placed)
      case None => None
      case Some((c, next)) =>
        var more := placed + [c];
        assert Spread(placed, fixed) ==> Spread(more, fixed) by {
          if Spread(placed, fixed) {
            forall j, k | 0 <= j < k < |more| ensures more[j] != more[k] {
              if k == |placed| { assert more[j] in placed; }
            }
          }
        }
        var r := PlaceMany(rng, next, count - 1, fixed, more);
        assert r.Some? ==> r.value.0[..|placed|] == r.value.0[..|more|][..|placed|];
        r
  }

  /** The board a reset produces: start, goal, foods and obstacles. */
  datatype Layout = Layout(start: Cell, end: Cell, foods: seq<Cell>, obstacles: seq<Cell>)

  /** The placement rules of each mode. */
  predicate WellPlaced(mode: GameMode, l: Layout) {
    && OnBoard(l.start) && OnBoard(l.end)
    && match mode
       case Basic =>
         l.end != l.start && l.foods == [] && l.obstacles == []
       case PickFood =>
         && l.start == Cell(BOARD_SIZE / 2, BOARD_SIZE / 2) && l.end == Cell(0, 0)
         && |l.foods| == 2 && Spread(l.foods, [l.start]) && l.obstacles == []
       case Obstacles =>
         && l.end != l.start && l.foods == []
         && 2 <= |l.obstacles| <= 4 && Spread(l.obstacles, [l.start, l.end])
  }

  /** The board resetGame builds from the draws, in the order the draws
      are made; None when the draws run out first. */
  function GenerateBoard(mode: GameMode, rng: seq<Unit>): (r: Option<Layout>)
    ensures r.Some? ==> WellPlaced(mode, r.value)
    ensures r.Some? ==> |rng| >= 2 && (mode != PickFood ==> r.value.start == DrawCell(rng, 0))
  {
    if |rng| < 2 then None
    else
      var start := DrawCell(rng, 0);
      match mode
      case Basic =>
        (match FirstFree(rng, 2, [start])
         case None => None
         case Some((end, _)) => Some(Layout(start, end, [], [])))
      case PickFood =>
        var centre := Cell(BOARD_SIZE / 2, BOARD_SIZE / 2);
        (match PlaceMany(rng, 2, 2, [centre], [])
         case None => None
         case Some((foods, _)) => Some(Layout(centre, Cell(0, 0), foods, [])))
      case Obstacles =>
        (match FirstFree(rng, 2, [start])
         case None => None
         case Some((end, q)) =>
           if q >= |rng| then None
           else
             var numObstacles := 2 + RandomBelow(rng[q], 3);
             (match PlaceMany(rng, q + 1, numObstacles, [start, end], [])
              case None => None
              case Some((obs, _)) => Some(Layout(start, end, [], obs))))
  }

  /** The do…while rejection loop itself: draw a cell, retry while it is
      in avoid. */
  method SampleCell(rng: seq<Unit>, p: nat, avoid: seq<Cell>) returns (r: Option<(Cell, nat)>)
    ensures r == FirstFree(rng, p, avoid)
  {
    var q := p;
    while q + 2 <= |rng|
      invariant p <= q
      invariant FirstFree(rng, q, avoid) == FirstFree(rng, p, avoid)
      decreases |rng| - q
    {
      var cell := DrawCell(rng, q);
      q := q + 2;
      if cell !in avoid {
        return Some((cell, q));
      }
    }
    return None;
  }

  /** The generator's `for` loop: count rejection loops in a row, each
      avoiding fixed and every cell pushed so far. */
  method PlaceCells(rng: seq<Unit>, p: nat, count: nat, fixed: seq<Cell>) returns (r: Option<(seq<Cell>, nat)>)
    ensures r == PlaceMany(rng, p, count, fixed, [])
  {
    var placed: seq<Cell> := [];
    var q := p;
    for i := 0 to count
      invariant PlaceMany(rng, q, count - i, fixed, placed) == PlaceMany(rng, p, count, fixed, [])
    {
      var drawn := SampleCell(rng, q, fixed + placed);
      if drawn.None? {
        return None;
      }
      placed, q := placed + [drawn.value.0], drawn.value.1;
    }
    return Some((placed, q));
  }

  /** The drawing part of resetGame, in the order the draws are made: the
      start cell is drawn first in every mode, even in pick-food mode
      where the centre then replaces it. */
  method DrawBoard(mode: GameMode, rng: seq<Unit>) returns (board: Option<Layout>)
    ensures board == GenerateBoard(mode, rng)
  {
    if |rng| < 2 {
      return None;
    }
    var start := DrawCell(rng, 0);
    var end := Cell(0, 0);
    var foods: seq<Cell> := [];
    var obs: seq<Cell> := [];

    if mode == Basic {
      var drawn := SampleCell(rng, 2, [start]);
      if drawn.None? {
        return None;
      }
      end := drawn.value.0;
    } else if mode == PickFood {
      start := Cell(BOARD_SIZE / 2, BOARD_SIZE / 2);
      var placed := PlaceCells(rng, 2, 2, [start]);
      if placed.None? {
        return None;
      }
      foods := placed.value.0;
    } else {
      var drawn := SampleCell(rng, 2, [start]);
      if drawn.None? {
        return None;
      }
      var p;
      end, p := drawn.value.0, drawn.value.1;
      if p >= |rng| {
        return None;
      }
      var numObstacles := 2 + RandomBelow(rng[p], 3);
      var placed := PlaceCells(rng, p + 1, numObstacles, [start, end]);
      if placed.None? {
        return None;
      }
      obs := placed.value.0;
    }
    return Some(Layout(start, end, foods, obs));
  }
}
