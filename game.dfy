/** The CarGame component's state and its handlers: the fields are the
    useState hooks, each setter call is an assignment to its field. */
module Game {
  import opened Grid
  import opened Simulation
  import opened Generator

  class CarGame {
    var gameMode: GameMode
    var startPosition: Cell
    var endPosition: Cell
    var carPosition: Cell
    var carDirection: Direction
    var commands: seq<Command>
    var isExecuting: bool
    var hasWon: bool
    var hasFailed: bool
    var currentCommandIndex: int
    var foodPositions: seq<Cell>
    var collectedFood: seq<int>
    var obstacles: seq<Cell>

    /** The board as the fields hold it. */
    function Board(): Layout
      reads this
    {
      Layout(startPosition, endPosition, foodPositions, obstacles)
    }

    /** What a run started now reads from the component's closure. */
    function RunSetup(): Setup
      reads this
    {
      Setup(gameMode, endPosition, foodPositions, obstacles, collectedFood)
    }

    /** The board obeys its mode's placement rules, the car is on the
        board and every collected index names a food. */
    predicate Valid()
      reads this
    {
      && WellPlaced(gameMode, Layout(startPosition, endPosition, foodPositions, obstacles))
      && OnBoard(carPosition)
      && IndicesBelow(collectedFood, |foodPositions|)
    }

    /** The useState initial values, before the first reset. */
    constructor ()
      ensures Valid()
      ensures gameMode == Basic && startPosition == Cell(0, 0) && endPosition == Cell(4, 4)
      ensures carPosition == Cell(0, 0) && carDirection == North && commands == []
      ensures !isExecuting && !hasWon && !hasFailed && currentCommandIndex == -1
      ensures foodPositions == [] && collectedFood == [] && obstacles == []
    {
      gameMode := Basic;
      startPosition := Cell(0, 0);
      endPosition := Cell(4, 4);
      carPosition := Cell(0, 0);
      carDirection := North;
      commands := [];
      isExecuting := false;
      hasWon := false;
      hasFailed := false;
      currentCommandIndex := -1;
      foodPositions := [];
      collectedFood := [];
      obstacles := [];
    }

    /** The setter calls that end resetGame: the new board, the car on
        its start cell facing North, and an empty program, collected list
        and outcome. */
    method SetBoard(b: Layout)
      requires WellPlaced(gameMode, b)
      modifies this
      ensures Valid() && gameMode == old(gameMode) && Board() == b
      ensures carPosition == startPosition && carDirection == North && commands == [] && collectedFood == []
      ensures !isExecuting && !hasWon && !hasFailed && currentCommandIndex == -1
    {
      ghost var mode := gameMode;
      startPosition, endPosition, carPosition, carDirection := b.start, b.end, b.start, North;
      foodPositions, collectedFood, obstacles := b.foods, [], b.obstacles;
      commands, isExecuting, hasWon, hasFailed, currentCommandIndex := [], false, false, false, -1;
      assert gameMode == mode && Board() == b && WellPlaced(mode, b);
      assert OnBoard(carPosition) && IndicesBelow(collectedFood, |foodPositions|);
    }

    /** resetGame: a new random board for the current mode, drawn from
        rng. Returns false, changing nothing, when rng runs out before
        every rejection loop has accepted a draw. */
    method ResetGame(rng: seq<Unit>) returns (ok: bool)
      modifies this
      ensures ok == GenerateBoard(old(gameMode), rng).Some?
      ensures ok ==> Valid() && gameMode == old(gameMode) && Board() == GenerateBoard(gameMode, rng).value
      ensures ok ==> carPosition == startPosition && carDirection == North && commands == [] && collectedFood == []
      ensures ok ==> !isExecuting && !hasWon && !hasFailed && currentCommandIndex == -1
      ensures !ok ==> unchanged(this)
    {
      var board := DrawBoard(gameMode, rng);
      if board.None? {
        return false;
      }
      SetBoard(board.value);
      ok := true;
    }

    /** addCommand: append one command unless a run is in progress or the
        game is won. */
    method AddCommand(command: Command)
      modifies this
      ensures commands == if old(isExecuting) || old(hasWon) then old(commands) else old(commands) + [command]
      ensures gameMode == old(gameMode) && Board() == old(Board())
      ensures carPosition == old(carPosition) && carDirection == old(carDirection)
      ensures isExecuting == old(isExecuting) && hasWon == old(hasWon) && hasFailed == old(hasFailed)
      ensures currentCommandIndex == old(currentCommandIndex) && collectedFood == old(collectedFood)
    {
      if !isExecuting && !hasWon {
        commands := commands + [command];
      }
    }

    /** clearCommands: unless a run is in progress, empty the program, put
        the car back on the start cell facing North and clear the outcome;
        the collected food list is kept. */
    method ClearCommands()
      requires Valid()
      modifies this
      ensures Valid()
      ensures old(isExecuting) ==> unchanged(this)
      ensures !old(isExecuting) ==>
        && commands == [] && carPosition == startPosition && carDirection == North
        && !hasWon && !hasFailed
      ensures gameMode == old(gameMode) && Board() == old(Board()) && collectedFood == old(collectedFood)
      ensures isExecuting == old(isExecuting) && currentCommandIndex == old(currentCommandIndex)
    {
      if !isExecuting {
        commands := [];
        carPosition := startPosition;
        carDirection := North;
        hasWon := false;
        hasFailed := false;
      }
    }

    /** changeGameMode, followed by the effect that resets the board
        whenever gameMode takes a new value. Ignored while a run is in
        progress; choosing the current mode again changes nothing. */
    method ChangeGameMode(mode: GameMode, rng: seq<Unit>) returns (ok: bool)
      modifies this
      ensures old(isExecuting) || mode == old(gameMode) ==> unchanged(this) && ok
      ensures !old(isExecuting) && mode != old(gameMode) ==>
        && ok == GenerateBoard(mode, rng).Some?
        && (ok ==> Valid() && gameMode == mode && Board() == GenerateBoard(mode, rng).value)
        && (ok ==> carPosition == startPosition && carDirection == North && commands == [] && collectedFood == [])
        && (ok ==> !isExecuting && !hasWon && !hasFailed && currentCommandIndex == -1)
        && (!ok ==> unchanged(this))
    {
      ok := true;
      if !isExecuting && mode != gameMode {
        var previous := gameMode;
        gameMode := mode;
        ok := ResetGame(rng);
        if !ok {
          gameMode := previous;
        }
      }
    }

    /** The "forward" branch of the loop in executeCommands: the clamped
        step, the edge collision, the obstacle collision, food collection
        against the snapshot u.collected, and the goal. stop is the
        branch's `break`. */
    method MoveForward(u: Setup, currentX: int, currentY: int, currentDirection: Direction, ghost appended: seq<int>)
      returns (newX: int, newY: int, stop: bool, ghost after: Sim)
      requires carPosition == Cell(currentX, currentY) && carDirection == currentDirection
      requires collectedFood == u.collected + appended && !hasWon && !hasFailed
      modifies this`carPosition, this`carDirection, this`collectedFood, this`hasWon, this`hasFailed
      ensures after == Step(u, Forward, Sim(Cell(currentX, currentY), currentDirection, appended, Running))
      ensures Cell(newX, newY) == after.pos && after.dir == currentDirection && stop == (after.status != Running)
      ensures carPosition == after.pos && carDirection == currentDirection
      ensures collectedFood == u.collected + after.appended
      ensures hasFailed == (after.status == Failed) && hasWon == (after.status == Won)
    {
      var next := Advance(Cell(currentX, currentY), currentDirection);
      newX, newY := next.x, next.y;
      after := Sim(next, currentDirection, appended, Running);

      if newX == currentX && newY == currentY && FacesEdge(Cell(currentX, currentY), currentDirection) {
        carPosition := Cell(currentX, currentY);
        carDirection := currentDirection;
        hasFailed := true;
        newX, newY := currentX, currentY;
        after := after.(pos := Cell(currentX, currentY), status := Failed);
        return newX, newY, true, after;
      }

      if u.mode == Obstacles {
        if Cell(newX, newY) in u.obstacles {
          carPosition := Cell(newX, newY);
          hasFailed := true;
          after := after.(status := Failed);
          return newX, newY, true, after;
        }
      }

      carPosition := Cell(newX, newY);

      if u.mode == PickFood {
        var foodIndex := FindIndex(u.foods, Cell(newX, newY));
        if foodIndex != -1 && foodIndex !in u.collected {
          collectedFood := collectedFood + [foodIndex];
          after := after.(appended := appended + [foodIndex]);
          if |u.collected| + 1 == |u.foods| {
            hasWon := true;
            after := after.(status := Won);
            return newX, newY, true, after;
          }
        }
      }

      if (u.mode == Basic || u.mode == Obstacles) && newX == u.end.x && newY == u.end.y {
        hasWon := true;
        after := after.(status := Won);
        return newX, newY, true, after;
      }
      stop := false;
    }

    /** The for loop of executeCommands: every queued command in order,
        until one of them breaks out of the loop. u holds the closure's
        values, u.collected being the collected list when Go was pressed. */
    method ReplayCommands(u: Setup, cmds: seq<Command>, start: Cell)
      returns (currentX: int, currentY: int, currentDirection: Direction, ghost r: Sim)
      requires collectedFood == u.collected && !hasWon && !hasFailed
      modifies this`carPosition, this`carDirection, this`collectedFood, this`hasWon, this`hasFailed, this`currentCommandIndex
      ensures r == Run(u, cmds, start)
      ensures Cell(currentX, currentY) == r.pos && currentDirection == r.dir
      ensures carPosition == r.pos && carDirection == r.dir
      ensures collectedFood == u.collected + r.appended
      ensures hasFailed == (r.status == Failed) && hasWon == (r.status == Won)
    {
      currentX := start.x;
      currentY := start.y;
      currentDirection := North;
      carPosition := start;
      carDirection := North;

      ghost var appended: seq<int> := [];
      var i := 0;
      while i < |cmds|
        invariant 0 <= i <= |cmds|
        invariant RunFrom(u, cmds, i, Sim(Cell(currentX, currentY), currentDirection, appended, Running)) == Run(u, cmds, start)
        invariant carPosition == Cell(currentX, currentY) && carDirection == currentDirection
        invariant collectedFood == u.collected + appended
        invariant !hasWon && !hasFailed
      {
        currentCommandIndex := i;
        var command := cmds[i];

        if command == Forward {
          var stop;
          ghost var after;
          currentX, currentY, stop, after := MoveForward(u, currentX, currentY, currentDirection, appended);
          appended := after.appended;
          if stop {
            break;
          }
        } else if command == Left {
          currentDirection := TurnLeft(currentDirection);
          carDirection := currentDirection;
        } else {
          currentDirection := TurnRight(currentDirection);
          carDirection := currentDirection;
        }
        i := i + 1;
      }
      r := Sim(Cell(currentX, currentY), currentDirection, appended,
               if hasFailed then Failed else if hasWon then Won else Running);
    }

    /** executeCommands: replay the program from the start cell facing
        North. The run reads the mode, board and collected list as they
        were when it began, and afterwards the car ending on endPosition
        counts as a win in every mode. */
    method ExecuteCommands()
      requires Valid()
      modifies this
      ensures Valid()
      ensures old(commands) == [] || old(isExecuting) || old(hasWon) ==> unchanged(this)
      ensures !(old(commands) == [] || old(isExecuting) || old(hasWon)) ==>
        var r := Run(old(RunSetup()), old(commands), old(startPosition));
        && carPosition == r.pos && carDirection == r.dir
        && collectedFood == old(collectedFood) + r.appended
        && hasFailed == (r.status == Failed)
        && hasWon == (r.status == Won || r.pos == endPosition)
        && !isExecuting && currentCommandIndex == -1
      ensures gameMode == old(gameMode) && Board() == old(Board()) && commands == old(commands)
    {
      if |commands| == 0 || isExecuting || hasWon {
        return;
      }

      isExecuting, hasWon, hasFailed := true, false, false;

      var u := RunSetup();
      var cmds := commands;
      var start := startPosition;
      ghost var mode := gameMode;
      ghost var layout := Board();
      assert WellPlaced(mode, layout) && OnBoard(start) && IndicesBelow(u.collected, |u.foods|);

      var currentX, currentY, currentDirection, r := ReplayCommands(u, cmds, start);
      RunKeepsState(u, cmds, start);

      currentCommandIndex, isExecuting := -1, false;

      // The check after the loop has no mode guard.
      if currentX == u.end.x && currentY == u.end.y {
        hasWon := true;
      }
      assert gameMode == mode && Board() == layout;
      assert OnBoard(carPosition) && IndicesBelow(collectedFood, |foodPositions|);
    }
  }
}
