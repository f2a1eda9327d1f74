# Martian robots, modelled in Dafny

The program simulates robots walking on a rectangular grid ("Mars") with
inclusive upper limits `limitX`, `limitY` and lower limits 0. A robot has a
position, an orientation letter (`N`, `E`, `S`, `W`) and a `Lost` flag. It
obeys one-letter instructions: `L` and `R` turn it in place, and `F` steps it
one cell forward. A step that would leave the grid loses the robot. The robot
keeps its last on-grid position, and the environment records the off-grid
cell it tried to reach (the "scent"). A later robot whose step leads to a
scented cell skips that step instead of falling. One environment is shared
by all robots of a session, in input order.

The model has six modules, one file each:

- `wrappers.dfy` (`Wrappers`): `Option`, `Result` and the program's fatal
  errors (`InvalidInstruction`, `InvalidOrientation`, `InvalidLimits`).
- `decimal.dfy` (`Decimal`): `strconv.Itoa` and the one-character
  `strconv.Atoi` the program relies on. `Itoa` is proved injective.
- `headings.dfy` (`Headings`): the four headings, the two switch statements
  that turn them, and their algebra: a step of +1 or -1 modulo 4, period 4,
  left undoes right.
- `environment.dfy` (`Environments`): the `Environment` class (lost set and
  limits), `CheckLostRobot` and `AddLostRobot`. The source keys the lost map
  by the string `Itoa(x) + " " + Itoa(y)`. That key is proved injective, so
  the model holds the lost positions as a set of integer pairs.
- `robot.dfy` (`Robots`): the `Robot` class with `Instruct`, `TurnRight`,
  `TurnLeft`, `Move` and `Advance`. Each method is proved equal to a pure
  function on values (`Instructed`, `TurnedRight`, `TurnedLeft`, `Moved`,
  `Advanced`), and the properties are lemmas about those functions.
- `driver.dfy` (`Driver`): `createEnvWithLimits`, `getInputRobot` and
  `processInputInstruction`. The last is a loop proved equal to the function
  `Run`, with lemmas about ordering, early stop, monotonicity and staying on
  the grid. The file also holds the sample session of a 5 x 3 grid, run
  through the objects.

Where the program's documentation and its code disagree, the model follows
the code:

- A robot that is not lost is printed as `"x y O "`, with a trailing space
  (robot.go:123). The expected output of the kata's sample session is
  usually written without that trailing space.
- An unknown orientation letter is not rejected when the start line is read
  (main.go:41-43). It becomes an `Invalid orientation` error only when the
  robot first turns or moves, and then `TurnRight`, `TurnLeft` and `Move`
  report `(true, error)`. With an empty instruction line the robot is printed
  with its unknown letter.
- A start-line coordinate that is not a digit reads as 0 (main.go:39-40).
  It is not an error.
- `addLostRobot` and `setOrientation` are called but not defined in the
  source. They are modelled as their evident intent: insert the position,
  store the letter.

## Model

| member | source | states |
|---|---|---|
| `Decimal.Itoa` | environment.go:25 | the rendering is non-empty, has no space, and starts with `-` exactly for negative numbers |
| `Decimal.ItoaInjective` | environment.go:25 | distinct integers render differently |
| `Decimal.DigitsValueOfNatToString` | environment.go:25 | reading back the digits of a rendering gives the number |
| `Decimal.AtoiDigit` | main.go:39-40 | a digit character reads as its value; any other character reads as 0 because the conversion error is dropped |
| `Headings.HeadingOf` | robot.go:51-66 | an orientation string is valid exactly when it is `"N"`, `"E"`, `"S"` or `"W"` |
| `Headings.Letter` | robot.go:13 | every heading's letter is a one-character string that reads back as that heading |
| `Headings.Right` | robot.go:50-67 | turning right advances the cycle N, E, S, W by one, modulo 4 |
| `Headings.Left` | robot.go:70-87 | turning left moves the cycle back by one, modulo 4 |
| `Headings.Ahead` | robot.go:90-110 | the candidate cell of a step is the neighbour one unit east (x + 1), west (x - 1), north (y + 1) or south (y - 1) |
| `Headings.AheadAndBack` | robot.go:90-110 | a step ahead, a half turn and a step ahead lead back to the starting cell |
| `Headings.LeftInvertsRight` | robot.go:50-87 | a left turn undoes a right turn and vice versa |
| `Headings.RightsIndex` | robot.go:50-67 | `n` right turns advance the cycle by `n` modulo 4 |
| `Headings.LeftsIndex` | robot.go:70-87 | `n` left turns move the cycle back by `n` modulo 4 |
| `Headings.TurnsShift` | robot.go:50-87 | one turn followed by `n` more of the same kind is `n + 1` turns |
| `Headings.TurnsHavePeriodFour` | robot.go:50-87 | right turns and left turns have period 4; four of either restore the heading |
| `Environments.KeyInjective` | environment.go:25 | distinct positions have distinct map keys |
| `Environments.KeysOfFaithful` | environment.go:24-30 | a position is in the lost set exactly when its key is in the source's map |
| `Environments.Environment.constructor` | main.go:31 | a new environment has the given limits and no lost positions |
| `Environments.Environment.CheckLostRobot` | environment.go:24-30 | true exactly when the key of (x, y) is present (every present key maps to true); absent keys give false; reads only |
| `Environments.Environment.AddLostRobot` | robot.go:130 | the lost set grows by exactly (x, y), and afterwards `CheckLostRobot(x, y)` holds |
| `Robots.TurnsKeepPlace` | robot.go:50-87 | turns never change x, y, the lost flag or the environment; with a valid orientation they report `(false, nil)`; otherwise `(true, Invalid orientation)` with nothing changed |
| `Robots.LeftUndoesRight` | robot.go:50-87 | on any robot, a right turn then a left turn (or the reverse) restores it; an invalid orientation is left alone by both |
| `Robots.FourTurnsRestore` | robot.go:50-87 | on any robot, four right turns, or four left turns, restore it |
| `Robots.ScentedStepSkipped` | robot.go:93-110 | when the cell ahead is scented, `Move` reports `(false, nil)` and changes neither robot nor environment |
| `Robots.StepOffGridLoses` | robot.go:127-131 | an unscented off-grid step sets Lost, keeps x and y, adds exactly the off-grid cell to the lost set, and reports true |
| `Robots.StepOnGridMoves` | robot.go:132-136 | an unscented on-grid step moves the robot to that cell, leaves the lost set alone, and reports false |
| `Robots.RepeatedFallIsNoOp` | robot.go:90-137 | after a robot falls from a place, the same step from the same place and heading (lost flag whatever it is) is skipped and changes nothing |
| `Robots.UnknownInstructionRejected` | robot.go:34-35 | an instruction other than F, L or R is an error and changes nothing |
| `Robots.InstructedMonotone` | robot.go:26-137 | Lost never goes back to false; the lost set only grows; it grows exactly when the robot gets lost, at its current position, and then by exactly the off-grid cell ahead |
| `Robots.InstructedStaysInGrid` | robot.go:90-137 | a robot on the grid is still on it after any instruction |
| `Robots.InstructedKeepsScentOffGrid` | robot.go:127-131 | every recorded position lies off the grid, and every instruction keeps it so |
| `Robots.PrintRobotPos` | robot.go:118-124 | the line starts with the position's lost-map key and a space; it ends in `LOST` exactly when the robot is lost, and in a space exactly when it is not |
| `Robots.Robot.constructor` | main.go:42 | a new robot has the given x and y, is not lost, and has an empty orientation until it is set |
| `Robots.Robot.SetOrientation` | main.go:43 | stores the given letter and changes nothing else |
| `Robots.Robot.TurnRight` | robot.go:50-67 | the new orientation and result are those of `TurnedRight`; x, y and Lost are untouched |
| `Robots.Robot.TurnLeft` | robot.go:70-87 | the new orientation and result are those of `TurnedLeft`; x, y and Lost are untouched |
| `Robots.Robot.Advance` | robot.go:127-137 | the new robot, lost set and result are those of `Advanced`; the limits are untouched |
| `Robots.Robot.Move` | robot.go:90-115 | the new robot, lost set and result are those of `Moved`, which checks the scent before advancing |
| `Robots.Robot.Instruct` | robot.go:26-37 | the new robot, lost set and result are those of `Instructed`, which dispatches on F, L and R |
| `Driver.CreateEnvWithLimits` | main.go:25-35 | fails with `InvalidLimits` exactly when x or y is outside 0..50; otherwise a fresh environment with those limits and an empty lost set |
| `Driver.ParseRobot` | main.go:38-44 | x and y are read from positions 0 and 2 (digit value, or 0 for a non-digit), the orientation is the letter at position 4, and the robot is not lost |
| `Driver.GetInputRobot` | main.go:38-45 | a fresh robot whose state is the parsed start line |
| `Driver.PrintThenParse` | robot.go:118-124 | the printed line of a robot with one-digit coordinates, read back as a start line, gives the same robot, not lost |
| `Driver.ProcessInputInstruction` | main.go:48-64 | the final robot, lost set and error are those of `Run`; without an error the returned line is the robot's printed position |
| `Driver.RunEmpty` | main.go:50 | an empty instruction string leaves the robot and the lost set unchanged |
| `Driver.RunAppend` | main.go:50-58 | instructions apply strictly in order: running `u + v` runs `u`, then `v` from where `u` stopped, unless `u` failed or lost the robot |
| `Driver.RunIgnoresRestAfterLoss` | main.go:50 | once the robot is lost, the remaining instructions are ignored |
| `Driver.RunMonotone` | main.go:49-58 | over a run, a lost robot stays unchanged, the lost set only grows, and it grows only if this run lost the robot |
| `Driver.RunAbortsOnUnknownInstruction` | main.go:54-56 | an invalid instruction aborts the run with that error; the state is what the earlier instructions left, and later ones are not applied |
| `Driver.RunStaysInGrid` | main.go:48-58 | a robot that starts on the grid ends on it, and the lost set stays off the grid |
| `Driver.TurnsOnlyKeepPlace` | main.go:48-58 | a run of only L and R keeps the position, the lost flag and the lost set, and succeeds for a valid orientation |
| `Driver.ProcessRecord` | main.go:98-105 | one start line and one instruction line, run against the shared environment, leave the lost set and printed line of `Run` on the parsed robot |
| `Driver.RunRights` | main.go:48-58 | a run of `n` right turns from heading `h` ends facing `Rights(h, n)`, in place, with the lost set unchanged and no error |
| `Driver.RunLefts` | main.go:48-58 | a run of `n` left turns from heading `h` ends facing `Lefts(h, n)`, in place, with the lost set unchanged and no error |
| `Driver.SampleFirstRobot` | main.go:97-106 | on a 5 x 3 grid, `1 1 E` with `RFRFRFRF` comes back to `1 1 E` whatever off-grid scent exists |
| `Driver.SampleSecondRobot` | main.go:97-106 | `3 2 N` with `FRRFLLFFRRFLL` is lost at `3 3 N` and leaves scent at (3, 4), unless (3, 4) was already scented |
| `Driver.SampleThirdRobot` | main.go:97-106 | `0 3 W` with `LLFFFLFLFL` ends at `2 3 S` when (3, 4) is scented, and is lost at `3 3 N` when it is not |
| `Driver.SampleLines` | robot.go:118-124 | the sample start lines parse to the expected robots, and the expected robots print as `"1 1 E "`, `"3 3 N LOST"`, `"2 3 S "` |
| `Driver.SampleSession` | main.go:94-106 | the three sample robots, run in order against one environment, print `"1 1 E "`, `"3 3 N LOST"` and `"2 3 S "` |

## Left out

- `main` (main.go:66-112) is not modelled. That covers the file-path prompt, opening the file, the line scanner, and reading the limits line by character positions (main.go:89-92). It is I/O. Its loop body is modelled by `Driver.ProcessRecord`, and the sample input by `Driver.SampleSession`.
- `fmt.Println` (main.go:59) is not modelled. `Driver.ProcessInputInstruction` returns the line instead.
- `log.Fatal` becomes an error result, and the process exit is not modelled. Nothing is printed after an error.
- `GetPos` (robot.go:21-23) is not modelled: nothing calls it. Its string is exactly `Environments.Key(x, y)`, which is proved injective.
- The concrete Go map types are not modelled. The map is `map[string]bool` in environment.go:16 but `map[string]struct{}` in main.go:31. The model uses a set of positions, which is what both are meant to hold.
- The goroutine remark (main.go:103-104) is not modelled. Nothing runs concurrently, and the order of robots is kept.
- Go's 64-bit `int` is modelled as an unbounded integer. Coordinates come from single digits, and steps change them by one, so nothing comes near overflow.
- Strings are sequences of characters, one per byte. The model does not reproduce the UTF-8 expansion that Go's `string(byte)` applies to bytes above 127. Such a byte is not a digit, instruction or orientation letter either way.
- `Driver.GetInputRobot` and `Driver.ParseRobot` require a start line of at least five characters. A shorter line makes the source panic on an index out of range.
