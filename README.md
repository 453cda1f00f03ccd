# Car game: a Dafny model of its game logic

`car-game.tsx` is a React component. The player queues `forward`, `left`
and `right` commands, and a car replays them on a 5×5 board. There are
three game modes:

- **basic:** drive from the start cell to the goal cell;
- **pickFood:** the car starts in the centre and collects two foods;
- **obstacles:** reach the goal without driving onto an obstacle.

This project models the component's game logic, with its proofs:

- `grid.dfy` (module `Grid`) defines the board, the `Direction` enum in
  clockwise order, the commands and modes, the turns, and the clamped
  forward step of the `switch` at lines 229-242.
- `simulation.dfy` (module `Simulation`) is the run as a pure
  specification. `Step` applies one command. `RunFrom` and `Run` fold
  `Step` over the queued commands and stop at the first failure or win.
  A `Setup` holds what the run reads from the component's closure:
  - the mode;
  - the goal, foods and obstacles;
  - the `collectedFood` list as it was when Go was pressed.

  The lemmas state the game's rules in terms of this specification.
- `generator.dfy` (module `Generator`) is `resetGame`'s random board.
  The calls to `Math.random()` are a supplied sequence of draws
  (`Unit` = a real in [0, 1)). The `do…while` rejection loops are the
  method `SampleCell` and the function `FirstFree`. The per-mode
  placement rules are `WellPlaced`.
- `game.dfy` (module `Game`) is the class `CarGame`. Its fields are the
  component's `useState` hooks, and each setter call is an assignment to
  a field. The handlers are methods. `ExecuteCommands` keeps the
  source's loop, with its `break`s and field writes. It is proved
  against `Simulation.Run`, read on the closure's values.

Two behaviours of the code are modelled as written:

- **Stale food list.** Food collection tests the collected list as it
  was when the run began. `setCollectedFood(prev => …)` appends every
  pick-up to the live list. So one run can append the same food twice,
  and a run that starts with nothing collected never wins through food.
- **Final check ignores the mode.** The check after the loop has no mode
  guard, and it also runs after a failing `break`. In pick-food mode the
  goal stays at (0, 0), so a run that ends there is won. A run that
  fails on that corner ends both won and failed.

Three consequences of the code differ from how the game's rules read
in plain words; the model follows the code:

- A pick-food run is not won by collecting the second food in either
  order. The code wins only when
  `collectedFood.length + 1 === foodPositions.length` holds for the
  pre-run list (`Simulation.FoodWinNeedsOneMissing`,
  `Simulation.NoFoodWinFromEmptySnapshot`). A single run that picks up
  both foods is not won through food. It can still end won by the check
  after the loop, if it stops on (0, 0).
- North is up the board (y − 1), so a car on (0, 0) facing North
  fails on its first forward step
  (`Simulation.TopRowNorthFailsAtOnce`).
- The goal matters outside basic and obstacles mode too. The check
  after the loop applies in pick-food mode as well
  (`Simulation.PickFoodCornerFailsOnGoal`, `Game.CarGame.ExecuteCommands`).

On mount the component calls `resetGame` twice: once from the effect
at lines 49-51 and once from the `[gameMode]` effect at lines 54-58,
whose condition holds for every mode. The second board is the one kept.
The model takes a single `ResetGame` on a fresh `CarGame`. Any draws the
first call would consume can be dropped from the front of the supplied
sequence, so this loses nothing.

## Model

| member | source | states |
|---|---|---|
| Grid.TurnLeft | car-game.tsx:299 | No contract of its own. It is `(d + 3) % 4`, characterised by `Grid.TurnsAreInverse`, `Grid.FourTurnsAreIdentity` and `Grid.RightTurnsAreClockwise`. |
| Grid.TurnRight | car-game.tsx:308 | No contract of its own. It is `(d + 1) % 4`, characterised by the same three lemmas. |
| Grid.Advance | car-game.tsx:224-251 | From a cell on the board, the clamped step stays on the board. It stays put exactly when the car stands on the edge facing out. Otherwise it is the neighbouring cell: North y−1, East x+1, South y+1, West x−1. |
| Grid.TurnsAreInverse | car-game.tsx:297-315 | `(d+3)%4` and `(d+1)%4` undo each other. |
| Grid.FourTurnsAreIdentity | car-game.tsx:297-315 | Four left turns, or four right turns, restore any direction. |
| Grid.RightTurnsAreClockwise | car-game.tsx:9-15 | Right turns cycle North → East → South → West → North. A left turn from North gives West. |
| Simulation.FindIndex | car-game.tsx:281 | `findIndex` gives −1 exactly when the cell is absent. Otherwise it gives the first index that holds the cell. |
| Simulation.FoodStep | car-game.tsx:280-290 | No contract of its own. The food pick-up after a move; characterised by `Simulation.ForwardOntoFood`, `Simulation.StepAppends` and `Simulation.FoodWinNeedsOneMissing`. |
| Simulation.Step | car-game.tsx:224-315 | No contract of its own. One pass of the loop body; characterised by `Simulation.TurnStep`, `Simulation.ForwardMovesOneCell`, `Simulation.ForwardOntoFood` and `Simulation.StepAppends`, and implemented by `Game.CarGame.MoveForward`. |
| Simulation.RunFrom | car-game.tsx:216-319 | No contract of its own. The loop from command i on, stopping at the first `break`; characterised by `Simulation.StoppedRunIsFinal`, `Simulation.EdgeCollisionStops`, `Simulation.ObstacleCollisionStops`, `Simulation.GoalStops`, `Simulation.FoodWinStops` and the run-level inductions. |
| Simulation.Run | car-game.tsx:201-319 | No contract of its own. The whole loop from the start cell facing North; `Game.CarGame.ReplayCommands` and `Game.CarGame.ExecuteCommands` are proved equal to it, and `Simulation.RunKeepsState` and `Simulation.NoFoodWinFromEmptySnapshot` are stated on it. |
| Simulation.StoppedRunIsFinal | car-game.tsx:257 | After a `break` no further command is processed. |
| Simulation.RunningResultMeansNoStop | car-game.tsx:216-319 | A run still going at the end never stopped on the way. |
| Simulation.TurnStep | car-game.tsx:297-315 | `left` sets the heading to `(d+3)%4` and `right` to `(d+1)%4`, changing nothing else. |
| Simulation.TurnsOnlyRun | car-game.tsx:297-315 | A program of turns only never moves the car and never stops. It ends rotated by its net quarter turns mod 4. |
| Simulation.FourTurnsRestoreHeading | car-game.tsx:297-315 | Four identical turns leave the run's whole state unchanged. |
| Simulation.EdgeCollisionStops | car-game.tsx:244-258 | `forward` while facing the edge fails the run where the car stands, and the later commands are skipped. |
| Simulation.ForwardMovesOneCell | car-game.tsx:224-262 | An unblocked `forward` moves exactly one cell in the heading's direction and keeps the heading. |
| Simulation.ObstacleCollisionStops | car-game.tsx:264-273 | In obstacles mode, stepping onto an obstacle leaves the car on it, fails the run and skips the later commands. |
| Simulation.GoalStops | car-game.tsx:292-296 | In basic or obstacles mode, the first step onto the goal wins and skips the later commands. |
| Simulation.RunStaysOnBoard | car-game.tsx:229-242 | A run starting on the board ends on the board. |
| Simulation.WonIffOnGoal | car-game.tsx:292-296 | Outside pick-food mode, with the goal not an obstacle, a run is won exactly when it ends on the goal. So the check after the loop changes nothing there. |
| Simulation.ForwardOntoFood | car-game.tsx:280-290 | Stepping onto food k appends k exactly when k is not in the pre-run snapshot, even when this run already appended it. Such a pick-up wins exactly when the snapshot is one short of all foods; otherwise the status is kept. |
| Simulation.FoodWinStops | car-game.tsx:282-288 | Moving onto a food missing from a snapshot that lacks only that food wins the run on the food cell, appends the index and skips the later commands. |
| Simulation.FoodWinNeedsOneMissing | car-game.tsx:285-288 | A pick-food run is won only if the snapshot lacks exactly one food. |
| Simulation.NoFoodWinFromEmptySnapshot | car-game.tsx:282-288 | With two foods and an empty snapshot, no pick-food run is won through food. |
| Simulation.StepAppends | car-game.tsx:281-283 | One step appends nothing, or appends the index of the food it moved onto when that index is not in the snapshot. |
| Simulation.AppendedAreUncollectedFoods | car-game.tsx:281-283 | Every index a run appends names a food and is not in the snapshot. |
| Simulation.RunKeepsState | car-game.tsx:216-319 | A run from a cell on the board ends on the board. The collected list stays a list of food indices. |
| Simulation.OnlyPickFoodAppends | car-game.tsx:280 | Outside pick-food mode a run appends no food. |
| Simulation.SameFoodAppendedTwice | car-game.tsx:282-283 | A concrete run appends food 0 twice: forward onto it, back off, forward again. |
| Simulation.PickFoodCornerFailsOnGoal | car-game.tsx:245-258 | A concrete pick-food run fails at the top-left corner, which is the goal (0, 0). |
| Simulation.TopRowNorthFailsAtOnce | car-game.tsx:245-258 | A run from the top row whose first command is `forward` fails at once, on its start cell. |
| Generator.RandomBelow | car-game.tsx:69 | `Math.floor(Math.random() * n)` lies in 0 .. n−1. |
| Generator.DrawCell | car-game.tsx:69 | Two draws make a cell on the board. |
| Generator.FirstFree | car-game.tsx:77-79 | An accepted cell is on the board and not in the avoided list. It uses at least one pair of draws. |
| Generator.FirstFreeIsFirstAccepted | car-game.tsx:88-93 | The rejection loop accepts the first drawn cell not in the avoided list: the accepted cell is made of a pair of draws an even number of draws after the start, and every earlier pair was rejected. It gives up only if every remaining draw lands in the avoided list. |
| Generator.PlaceMany | car-game.tsx:104-114 | The `for` loop pushes exactly `count` cells after those already placed. It keeps them pairwise distinct, on the board and off the fixed cells. |
| Generator.GenerateBoard | car-game.tsx:68-115 | Every generated board obeys its mode's placement rules (`WellPlaced`): basic has end ≠ start and no foods or obstacles. pickFood has start (2, 2), end (0, 0), two distinct foods off the start and no obstacles. obstacles has end ≠ start, 2 to 4 distinct obstacles off start and end, and no foods. Outside pickFood the start is the first two draws. |
| Generator.SampleCell | car-game.tsx:98-100 | The `do…while` loop returns exactly what `FirstFree` specifies. |
| Generator.PlaceCells | car-game.tsx:86-95 | The `for` loop with its rejection loops returns exactly what `PlaceMany` specifies. |
| Generator.DrawBoard | car-game.tsx:68-115 | The drawing part of `resetGame`, in the source's draw order, returns exactly `GenerateBoard`'s board. |
| Game.CarGame.constructor | car-game.tsx:29-41 | The `useState` initial values. They satisfy the class invariant `Valid`. |
| Game.CarGame.SetBoard | car-game.tsx:117-136 | Installs the board. The car is on the start cell facing North, with empty commands and collected list, flags cleared and index −1. `Valid` holds. |
| Game.CarGame.ResetGame | car-game.tsx:68-137 | Succeeds exactly when `GenerateBoard` yields a board, and then installs that board for the current mode with the reset fields. |
| Game.CarGame.AddCommand | car-game.tsx:140-144 | Appends exactly the one command unless a run is in progress or the game is won. Nothing else changes. |
| Game.CarGame.ClearCommands | car-game.tsx:147-163 | Unless a run is in progress: empties the commands, puts the car back on the start cell facing North, clears both outcome flags, keeps the collected list. |
| Game.CarGame.ChangeGameMode | car-game.tsx:54-65 | Ignored while a run is in progress. Choosing the current mode again changes nothing, since the effect reruns only on a new value. A new mode is set and the board regenerated for it. |
| Game.CarGame.MoveForward | car-game.tsx:224-296 | The `forward` branch writes the fields and locals that `Step` specifies for a `forward` command. It breaks exactly when that step stops the run. |
| Game.CarGame.ReplayCommands | car-game.tsx:216-319 | The loop ends with the locals and fields at `Run`'s final state: position, heading, each pick-up appended to the live list, and the outcome flags. |
| Game.CarGame.ExecuteCommands | car-game.tsx:194-328 | Does nothing on an empty program, while running, or once won. Otherwise the car ends where `Run` on the pre-run values ends, and `collectedFood` is the snapshot plus the run's pick-ups. `hasFailed` is the run failing, and `hasWon` is the run winning or ending on `endPosition` in any mode. `isExecuting` is cleared, the index is −1, and the board and program are unchanged. `Valid` is kept. |

## Left out

- Rendering: the JSX, cell styling, SVG icons, emojis and status strings (lines 330 onward). These are presentation only.
- The DOM refs and the animation helpers `updateTrianglePosition` and `rotateTriangle`, with their CSS strings. These are view effects that no modelled state reads.
- The 500 ms `await setTimeout` pauses. The loop of `executeCommands` runs synchronously here.
- Game.CarGame.ExecuteCommands: clicks that arrive while a run awaits its timeouts are not modelled. No other handler interleaves with a run, so `isExecuting` is false between calls. The `isExecuting` guards are still modelled as written.
- React's scheduling and batching of `useState` and `useEffect`: setters are assignments to fields. The one closure read that matters, the pre-run `collectedFood`, is kept as `Setup.collected`. The two mount-time resets (lines 49-58) are one `ResetGame` called on a new `CarGame`.
- `Math.random()` is a supplied sequence of draws in [0, 1), consumed in the source's order. Line 69 draws a start cell even in pick-food mode, and the model consumes it too.
- Generator.GenerateBoard: the source's rejection loops retry without bound. Over a finite sequence of draws they can run out before a cell is accepted, and then the result is `None`. `Generator.FirstFree`, `Generator.PlaceMany`, `Generator.SampleCell`, `Generator.PlaceCells` and `Generator.DrawBoard` share this. Termination of the unbounded loops is not claimed.
- Game.CarGame.ResetGame: when the draws run out it returns false and changes nothing. The source has no such outcome.
- Game.CarGame.ChangeGameMode: when the draws for the new mode run out, it returns false and keeps the old mode. The source always switches.
- `next.config.mjs` is build configuration with no game logic, and it is not part of this model.
