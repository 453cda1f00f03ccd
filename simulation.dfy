/** The command executor of the car game as a pure specification: one
    command is one Step, a run folds Step over the queued commands and
    stops at the first failure or win. */
module Simulation {
  import opened Grid

  datatype Status = Running | Failed | Won

  /** What a run reads from the game as it was when Go was pressed: the
      mode, the goal, the food and obstacle cells, and the snapshot of the
      collected food indices (the run never sees its own additions). */
  datatype Setup = Setup(mode: GameMode, end: Cell, foods: seq<Cell>, obstacles: seq<Cell>, collected: seq<int>)

  /** The run's locals: the car's cell and heading, the food indices the
      run has appended to the collected list, and whether it stopped. */
  datatype Sim = Sim(pos: Cell, dir: Direction, appended: seq<int>, status: Status)

  /** Array.prototype.findIndex on cells: the first index holding c, or -1. */
  function FindIndex(cells: seq<Cell>, c: Cell): (r: int)
    ensures -1 <= r < |cells|
    ensures r == -1 <==> c !in cells
    ensures r >= 0 ==> cells[r] == c && c !in cells[..r]
  {
    if cells == [] then -1
    else if cells[0] == c then 0
    else
      var k := FindIndex(cells[1..], c);
      if k == -1 then -1
      else
        assert cells[..k + 1] == [cells[0]] + cells[1..][..k];
        k + 1
  }

  /** Food collection after the car has moved onto its new cell. */
  function FoodStep(u: Setup, s: Sim): Sim {
    var foodIndex := FindIndex(u.foods, s.pos);
    if foodIndex != -1 && foodIndex !in u.collected then
      var s1 := s.(appended := s.appended + [foodIndex]);
      if |u.collected| + 1 == |u.foods| then s1.(status := Won) else s1
    else s
  }

  /** One command applied to a running simulation. */
  function Step(u: Setup, cmd: Command, s: Sim): Sim {
    match cmd
    case Left => s.(dir := TurnLeft(s.dir))
    case Right => s.(dir := TurnRight(s.dir))
    case Forward =>
      var next := Advance(s.pos, s.dir);
      if next == s.pos && FacesEdge(s.pos, s.dir) then
        s.(status := Failed)
      else if u.mode == Obstacles && next in u.obstacles then
        s.(pos := next, status := Failed)
      else
        var moved := s.(pos := next);
        var fed := if u.mode == PickFood then FoodStep(u, moved) else moved;
        if fed.status == Running && (u.mode == Basic || u.mode == Obstacles) && next == u.end then
          fed.(status := Won)
        else fed
  }

  /** Commands i, i+1, ... applied in order until one stops the run. */
  function RunFrom(u: Setup, cmds: seq<Command>, i: nat, s: Sim): Sim
    decreases |cmds| - i
  {
    if i >= |cmds| || s.status != Running then s
    else RunFrom(u, cmds, i + 1, Step(u, cmds[i], s))
  }

  /** Every run starts at the start cell facing North, nothing appended. */
  function Init(start: Cell): Sim {
    Sim(start, North, [], Running)
  }

  function Run(u: Setup, cmds: seq<Command>, start: Cell): Sim {
    RunFrom(u, cmds, 0, Init(start))
  }

  /** Quarter turns clockwise that a command makes. */
  function Quarters(c: Command): nat {
    match c
    case Forward => 0
    case Left => 3
    case Right => 1
  }

  function NetQuarters(cmds: seq<Command>): nat {
    if cmds == [] then 0 else Quarters(cmds[0]) + NetQuarters(cmds[1..])
  }

  lemma ModShift(a: nat, b: nat)
    ensures (a % 4 + b) % 4 == (a + b) % 4
  {
    var q := a / 4;
    assert a == 4 * q + a % 4;
    assert a + b == 4 * q + (a % 4 + b);
  }

  // ----- Halting -----

  /** A stopped run processes no further commands. */
  lemma StoppedRunIsFinal(u: Setup, cmds: seq<Command>, i: nat, s: Sim)
    requires s.status != Running
    ensures RunFrom(u, cmds, i, s) == s
  {
  }

  /** A run that is still running at the end never stopped on the way. */
  lemma {:induction false} RunningResultMeansNoStop(u: Setup, cmds: seq<Command>, i: nat, s: Sim)
    requires RunFrom(u, cmds, i, s).status == Running
    ensures s.status == Running
    decreases |cmds| - i
  {
    if i < |cmds| && s.status == Running {
      RunningResultMeansNoStop(u, cmds, i + 1, Step(u, cmds[i], s));
    }
  }

  // ----- Turns -----

  /** A turn changes the heading by a quarter and nothing else. */
  lemma TurnStep(u: Setup, s: Sim)
    ensures Step(u, Left, s) == s.(dir := (s.dir + 3) % 4)
    ensures Step(u, Right, s) == s.(dir := (s.dir + 1) % 4)
  {
  }

  /** A program of turns only never moves the car and never stops the
      run; the heading ends rotated by the net number of quarter turns. */
  lemma {:induction false} TurnsOnlyRun(u: Setup, cmds: seq<Command>, i: nat, s: Sim)
    requires i <= |cmds|
    requires s.status == Running
    requires forall k :: i <= k < |cmds| ==> cmds[k] != Forward
    ensures RunFrom(u, cmds, i, s) == s.(dir := (s.dir + NetQuarters(cmds[i..])) % 4)
    decreases |cmds| - i
  {
    if i == |cmds| {
      assert cmds[i..] == [];
    } else {
      var t := Step(u, cmds[i], s);
      assert t == s.(dir := (s.dir + Quarters(cmds[i])) % 4);
      TurnsOnlyRun(u, cmds, i + 1, t);
      assert cmds[i..][1..] == cmds[i + 1..];
      ModShift(s.dir + Quarters(cmds[i]), NetQuarters(cmds[i + 1..]));
    }
  }

  /** Four identical turns leave the car exactly as it was. */
  lemma FourTurnsRestoreHeading(u: Setup, c: Command, s: Sim)
    requires c != Forward
    requires s.status == Running
    ensures RunFrom(u, [c, c, c, c], 0, s) == s
  {
    TurnsOnlyRun(u, [c, c, c, c], 0, s);
    assert [c, c, c, c][0..] == [c, c, c, c];
    assert NetQuarters([c, c, c, c]) == 4 * Quarters(c) by {
      assert [c, c, c, c][1..] == [c, c, c];
      assert [c, c, c][1..] == [c, c];
      assert [c, c][1..] == [c];
      assert [c][1..] == [];
      assert NetQuarters([c]) == Quarters(c);
      assert NetQuarters([c, c]) == 2 * Quarters(c);
      assert NetQuarters([c, c, c]) == 3 * Quarters(c);
    }
    var d := s.dir;
    assert (d + 4 * Quarters(c)) % 4 == d;
  }

  // ----- Forward moves -----

  /** Facing the edge, Forward fails the run where the car stands, and
      the commands after it are not executed. */
  lemma EdgeCollisionStops(u: Setup, cmds: seq<Command>, i: nat, s: Sim)
    requires i < |cmds| && cmds[i] == Forward
    requires s.status == Running && OnBoard(s.pos) && FacesEdge(s.pos, s.dir)
    ensures RunFrom(u, cmds, i, s) == s.(status := Failed)
  {
    var t := Step(u, Forward, s);
    assert t == s.(status := Failed);
    StoppedRunIsFinal(u, cmds, i + 1, t);
  }

  /** A forward step the edge does not block moves exactly one cell. */
  lemma ForwardMovesOneCell(u: Setup, s: Sim)
    requires OnBoard(s.pos) && !FacesEdge(s.pos, s.dir)
    ensures Step(u, Forward, s).pos == Neighbour(s.pos, s.dir)
    ensures Step(u, Forward, s).dir == s.dir
  {
  }

  /** In obstacles mode a step onto an obstacle leaves the car on it,
      fails the run and skips the remaining commands. */
  lemma ObstacleCollisionStops(u: Setup, cmds: seq<Command>, i: nat, s: Sim)
    requires u.mode == Obstacles
    requires i < |cmds| && cmds[i] == Forward
    requires s.status == Running && OnBoard(s.pos) && !FacesEdge(s.pos, s.dir)
    requires Neighbour(s.pos, s.dir) in u.obstacles
    ensures RunFrom(u, cmds, i, s) == s.(pos := Neighbour(s.pos, s.dir), status := Failed)
  {
    var t := Step(u, Forward, s);
    assert t == s.(pos := Neighbour(s.pos, s.dir), status := Failed);
    StoppedRunIsFinal(u, cmds, i + 1, t);
  }

  /** In basic or obstacles mode the first forward step onto the goal
      wins the run and skips the remaining commands. */
  lemma GoalStops(u: Setup, cmds: seq<Command>, i: nat, s: Sim)
    requires u.mode == Basic || u.mode == Obstacles
    requires i < |cmds| && cmds[i] == Forward
    requires s.status == Running && OnBoard(s.pos) && !FacesEdge(s.pos, s.dir)
    requires Neighbour(s.pos, s.dir) == u.end
    requires u.mode == Obstacles ==> u.end !in u.obstacles
    ensures RunFrom(u, cmds, i, s) == s.(pos := u.end, status := Won)
  {
    var t := Step(u, Forward, s);
    assert t == s.(pos := u.end, status := Won);
    StoppedRunIsFinal(u, cmds, i + 1, t);
  }

  /** From a cell on the board, the car stays on the board. */
  lemma {:induction false} RunStaysOnBoard(u: Setup, cmds: seq<Command>, i: nat, s: Sim)
    requires OnBoard(s.pos)
    ensures OnBoard(RunFrom(u, cmds, i, s).pos)
    decreases |cmds| - i
  {
    if i < |cmds| && s.status == Running {
      RunStaysOnBoard(u, cmds, i + 1, Step(u, cmds[i], s));
    }
  }

  // ----- Goal and the final check -----

  /** Outside pick-food mode a run is won exactly when it ends on the goal,
      provided the goal is not an obstacle and the run starts off the goal;
      so the check after the loop never changes the outcome there. */
  lemma {:induction false} WonIffOnGoal(u: Setup, cmds: seq<Command>, i: nat, s: Sim)
    requires u.mode == Basic || u.mode == Obstacles
    requires u.mode == Obstacles ==> u.end !in u.obstacles
    requires s.status == Won <==> s.pos == u.end
    ensures var r := RunFrom(u, cmds, i, s); r.status == Won <==> r.pos == u.end
    decreases |cmds| - i
  {
    if i < |cmds| && s.status == Running {
      WonIffOnGoal(u, cmds, i + 1, Step(u, cmds[i], s));
    }
  }

  // ----- Food -----

  /** Moving onto a food cell appends its index exactly when the index is
      not in the snapshot, even if this run appended it already. */
  lemma ForwardOntoFood(u: Setup, s: Sim, k: nat)
    requires u.mode == PickFood
    requires OnBoard(s.pos) && !FacesEdge(s.pos, s.dir)
    requires k < |u.foods| && u.foods[k] == Neighbour(s.pos, s.dir) && u.foods[k] !in u.foods[..k]
    ensures var t := Step(u, Forward, s);
      && t.pos == u.foods[k]
      && (k !in u.collected ==> t.appended == s.appended + [k])
      && (k !in u.collected ==> t.status == if |u.collected| + 1 == |u.foods| then Won else s.status)
      && (k in u.collected ==> t.appended == s.appended && t.status == s.status)
  {
  }

  /** Moving onto a food missing from the snapshot when the snapshot lacks
      just that one food wins the run on the food cell, and the commands
      after it are not executed. */
  lemma FoodWinStops(u: Setup, cmds: seq<Command>, i: nat, s: Sim, k: nat)
    requires u.mode == PickFood
    requires i < |cmds| && cmds[i] == Forward
    requires s.status == Running && OnBoard(s.pos) && !FacesEdge(s.pos, s.dir)
    requires k < |u.foods| && u.foods[k] == Neighbour(s.pos, s.dir) && u.foods[k] !in u.foods[..k]
    requires k !in u.collected && |u.collected| + 1 == |u.foods|
    ensures RunFrom(u, cmds, i, s) == s.(pos := u.foods[k], appended := s.appended + [k], status := Won)
  {
    StoppedRunIsFinal(u, cmds, i + 1, Step(u, Forward, s));
  }

  /** A pick-food run is won through food only when the snapshot lacks
      exactly one food. */
  lemma {:induction false} FoodWinNeedsOneMissing(u: Setup, cmds: seq<Command>, i: nat, s: Sim)
    requires u.mode == PickFood
    requires s.status == Running
    requires RunFrom(u, cmds, i, s).status == Won
    ensures |u.collected| + 1 == |u.foods|
    decreases |cmds| - i
  {
    if i < |cmds| {
      var t := Step(u, cmds[i], s);
      if t.status == Running {
        FoodWinNeedsOneMissing(u, cmds, i + 1, t);
      } else {
        StoppedRunIsFinal(u, cmds, i + 1, t);
      }
    }
  }

  /** With two foods and nothing collected before Go, the run cannot win
      through food, however many foods it visits. */
  lemma NoFoodWinFromEmptySnapshot(u: Setup, cmds: seq<Command>, start: Cell)
    requires u.mode == PickFood && |u.foods| == 2 && u.collected == []
    ensures Run(u, cmds, start).status != Won
  {
    if Run(u, cmds, start).status == Won {
      FoodWinNeedsOneMissing(u, cmds, 0, Init(start));
    }
  }

  /** One step appends nothing, or the index of the food it moved onto
      when that index is not in the snapshot. */
  lemma StepAppends(u: Setup, c: Command, s: Sim)
    ensures var t := Step(u, c, s);
      || t.appended == s.appended
      || (var k := FindIndex(u.foods, t.pos); 0 <= k < |u.foods| && k !in u.collected && t.appended == s.appended + [k])
  {
  }

  /** Every index a run appends names a food and is not in the snapshot. */
  lemma {:induction false} AppendedAreUncollectedFoods(u: Setup, cmds: seq<Command>, i: nat, s: Sim)
    requires forall k :: 0 <= k < |s.appended| ==> 0 <= s.appended[k] < |u.foods| && s.appended[k] !in u.collected
    ensures var r := RunFrom(u, cmds, i, s);
      forall k :: 0 <= k < |r.appended| ==> 0 <= r.appended[k] < |u.foods| && r.appended[k] !in u.collected
    decreases |cmds| - i
  {
    if i < |cmds| && s.status == Running {
      var t := Step(u, cmds[i], s);
      StepAppends(u, cmds[i], s);
      assert forall k :: 0 <= k < |t.appended| ==> 0 <= t.appended[k] < |u.foods| && t.appended[k] !in u.collected by {
        if t.appended != s.appended {
          var j := FindIndex(u.foods, t.pos);
          assert t.appended == s.appended + [j];
          forall k | 0 <= k < |t.appended|
            ensures 0 <= t.appended[k] < |u.foods| && t.appended[k] !in u.collected
          {
            if k < |s.appended| { assert t.appended[k] == s.appended[k]; }
          }
        }
      }
      AppendedAreUncollectedFoods(u, cmds, i + 1, t);
      assert RunFrom(u, cmds, i, s) == RunFrom(u, cmds, i + 1, t);
    }
  }

  /** Every entry of collected is an index into a list of n foods. */
  predicate IndicesBelow(collected: seq<int>, n: int) {
    forall k :: 0 <= k < |collected| ==> 0 <= collected[k] < n
  }

  /** A run from a cell on the board ends on the board, and what it
      appends to a list of valid food indices keeps that list valid. */
  lemma RunKeepsState(u: Setup, cmds: seq<Command>, start: Cell)
    requires OnBoard(start) && IndicesBelow(u.collected, |u.foods|)
    ensures var r := Run(u, cmds, start);
      OnBoard(r.pos) && IndicesBelow(u.collected + r.appended, |u.foods|)
  {
    var r := Run(u, cmds, start);
    assert r == RunFrom(u, cmds, 0, Init(start));
    RunStaysOnBoard(u, cmds, 0, Init(start));
    AppendedAreUncollectedFoods(u, cmds, 0, Init(start));
    assert forall k :: 0 <= k < |r.appended| ==> 0 <= r.appended[k] < |u.foods|;
    var all := u.collected + r.appended;
    forall k | 0 <= k < |all| ensures 0 <= all[k] < |u.foods| {
      if k < |u.collected| {
        assert all[k] == u.collected[k];
        assert 0 <= u.collected[k] < |u.foods|;
      } else {
        assert all[k] == r.appended[k - |u.collected|];
      }
    }
  }

  /** Only pick-food runs append food, and only through Forward. */
  lemma {:induction false} OnlyPickFoodAppends(u: Setup, cmds: seq<Command>, i: nat, s: Sim)
    requires u.mode != PickFood
    ensures RunFrom(u, cmds, i, s).appended == s.appended
    decreases |cmds| - i
  {
    if i < |cmds| && s.status == Running {
      OnlyPickFoodAppends(u, cmds, i + 1, Step(u, cmds[i], s));
    }
  }

  // ----- Worked runs -----

  /** The same food is appended twice in one run: from the centre the car
      drives onto food 0, backs off and drives onto it again. */
  lemma SameFoodAppendedTwice()
    ensures var u := Setup(PickFood, Cell(0, 0), [Cell(2, 1), Cell(4, 4)], [], []);
      var r := Run(u, [Forward, Right, Right, Forward, Right, Right, Forward], Cell(2, 2));
      r.pos == Cell(2, 1) && r.appended == [0, 0] && r.status == Running
  {
    var u := Setup(PickFood, Cell(0, 0), [Cell(2, 1), Cell(4, 4)], [], []);
    var cmds := [Forward, Right, Right, Forward, Right, Right, Forward];
    var s1 := Step(u, Forward, Init(Cell(2, 2)));
    assert s1 == Sim(Cell(2, 1), North, [0], Running);
    var s3 := Step(u, Right, Step(u, Right, s1));
    assert s3 == Sim(Cell(2, 1), South, [0], Running);
    var s4 := Step(u, Forward, s3);
    assert s4 == Sim(Cell(2, 2), South, [0], Running);
    var s6 := Step(u, Right, Step(u, Right, s4));
    assert s6 == Sim(Cell(2, 2), North, [0], Running);
    var s7 := Step(u, Forward, s6);
    assert s7 == Sim(Cell(2, 1), North, [0, 0], Running);
    assert RunFrom(u, cmds, 7, s7) == s7;
    assert RunFrom(u, cmds, 4, s4) == s7;
    assert RunFrom(u, cmds, 0, Init(Cell(2, 2))) == RunFrom(u, cmds, 4, s4);
  }

  /** A pick-food run that fails at the top-left corner ends on the goal
      cell (0, 0) that pick-food mode leaves in place, so the check after
      the loop declares a win on top of the failure. */
  lemma PickFoodCornerFailsOnGoal()
    ensures var u := Setup(PickFood, Cell(0, 0), [Cell(4, 4), Cell(3, 3)], [], []);
      var r := Run(u, [Left, Forward, Forward, Right, Forward, Forward, Forward], Cell(2, 2));
      r.pos == u.end && r.status == Failed && r.appended == []
  {
    var u := Setup(PickFood, Cell(0, 0), [Cell(4, 4), Cell(3, 3)], [], []);
    var cmds := [Left, Forward, Forward, Right, Forward, Forward, Forward];
    var s1 := Step(u, Left, Init(Cell(2, 2)));
    assert s1 == Sim(Cell(2, 2), West, [], Running);
    var s3 := Step(u, Forward, Step(u, Forward, s1));
    assert s3 == Sim(Cell(0, 2), West, [], Running);
    var s4 := Step(u, Right, s3);
    assert s4 == Sim(Cell(0, 2), North, [], Running);
    var s6 := Step(u, Forward, Step(u, Forward, s4));
    assert s6 == Sim(Cell(0, 0), North, [], Running);
    var s7 := Step(u, Forward, s6);
    assert s7 == Sim(Cell(0, 0), North, [], Failed);
    assert RunFrom(u, cmds, 7, s7) == s7;
    assert RunFrom(u, cmds, 3, s3) == s7;
    assert RunFrom(u, cmds, 0, Init(Cell(2, 2))) == RunFrom(u, cmds, 3, s3);
  }

  /** The car starting on the top row facing North fails at once. */
  lemma TopRowNorthFailsAtOnce(u: Setup, cmds: seq<Command>, x: int)
    requires 0 <= x < BOARD_SIZE
    requires |cmds| > 0 && cmds[0] == Forward
    ensures Run(u, cmds, Cell(x, 0)) == Sim(Cell(x, 0), North, [], Failed)
  {
    EdgeCollisionStops(u, cmds, 0, Init(Cell(x, 0)));
  }
}
