/** The driver of main.go without its file and console I/O: building the
    grid, reading a robot's start line, and running one instruction line. */
module Driver {
  import opened Wrappers
  import opened Decimal
  import opened Headings
  import opened Environments
  import opened Robots

  /** Character positions of x, y and the orientation in a start line. */
  const XCoordPos := 0
  const YCoordPos := 2
  const OrientationPos := 4

  /** Largest accepted grid limit. */
  const MapLimit := 50

  /** `createEnvWithLimits`: limits outside 0..50 are fatal; otherwise a
      grid with those limits and nothing lost yet. */
  method CreateEnvWithLimits(x: int, y: int) returns (r: Result<Environment, Error>)
    ensures r.Failure? <==> (x < 0 || x > MapLimit || y < 0 || y > MapLimit)
    ensures r.Failure? ==> r.error == InvalidLimits
    ensures r.Success? ==>
      fresh(r.value) && r.value.Limits() == Bounds(x, y) && r.value.lostRobots == {}
  {
    if x < 0 || x > MapLimit || y < 0 || y > MapLimit {
      return Failure(InvalidLimits);
    }
    var env := new Environment(x, y);
    return Success(env);
  }

  /** The robot a start line describes: one-character coordinates at
      positions 0 and 2 (a non-digit reads as 0, since the conversion error
      is dropped), the one-letter orientation at position 4, not lost. */
  function ParseRobot(robotPos: string): (p: Pose)
    requires |robotPos| > OrientationPos
    ensures 0 <= p.x < 10 && 0 <= p.y < 10 && !p.lost
    ensures p.orientation == [robotPos[OrientationPos]]
    ensures IsDigit(robotPos[XCoordPos]) ==> Itoa(p.x) == [robotPos[XCoordPos]]
    ensures IsDigit(robotPos[YCoordPos]) ==> Itoa(p.y) == [robotPos[YCoordPos]]
    ensures !IsDigit(robotPos[XCoordPos]) ==> p.x == 0
    ensures !IsDigit(robotPos[YCoordPos]) ==> p.y == 0
  {
    var x := AtoiDigit(robotPos[XCoordPos]);
    var y := AtoiDigit(robotPos[YCoordPos]);
    ItoaOfDigit(x);
    ItoaOfDigit(y);
    Pose(x, y, [robotPos[OrientationPos]], false)
  }

  /** `getInputRobot`. */
  method GetInputRobot(robotPos: string) returns (robot: Robot)
    requires |robotPos| > OrientationPos
    ensures fresh(robot) && robot.State() == ParseRobot(robotPos)
  {
    var x := AtoiDigit(robotPos[XCoordPos]);
    var y := AtoiDigit(robotPos[YCoordPos]);
    var orientation := [robotPos[OrientationPos]];
    robot := new Robot(x, y);
    robot.SetOrientation(orientation);
  }

  /** Printing a robot with one-digit coordinates and a one-letter
      orientation, then reading the line back as a start line, gives the
      same robot, not lost. */
  lemma PrintThenParse(p: Pose)
    requires 0 <= p.x < 10 && 0 <= p.y < 10 && |p.orientation| == 1
    ensures |PrintRobotPos(p)| > OrientationPos
    ensures ParseRobot(PrintRobotPos(p)) == p.(lost := false)
  {
  }

  /** What `processInputInstruction` leaves behind: instructions are
      applied in order until the string ends, the robot is lost, or an
      instruction fails. */
  function Run(instructions: string, p: Pose, b: Bounds, scent: set<Cell>): Outcome
    decreases |instructions|
  {
    if |instructions| == 0 || p.lost then Outcome(p, scent, false, None)
    else
      var o := Instructed(p, b, scent, [instructions[0]]);
      if o.err.Some? || o.gotLost then o
      else Run(instructions[1..], o.pose, b, o.scent)
  }

  /** `processInputInstruction`; a failing instruction ends the run with its
      error (the source's `log.Fatal`), and otherwise the line the source
      prints is returned. */
  method ProcessInputInstruction(instructions: string, robot: Robot, env: Environment)
    returns (line: string, err: Option<Error>)
    modifies robot, env`lostRobots
    ensures var o := Run(instructions, old(robot.State()), env.Limits(), old(env.lostRobots));
      robot.State() == o.pose && env.lostRobots == o.scent && err == o.err
    ensures err == None ==> line == PrintRobotPos(robot.State())
  {
    ghost var run := Run(instructions, robot.State(), env.Limits(), env.lostRobots);
    var gotLost := false;
    var i := 0;
    while i < |instructions| && !robot.lost && !gotLost
      invariant 0 <= i <= |instructions|
      invariant !gotLost ==> run == Run(instructions[i..], robot.State(), env.Limits(), env.lostRobots)
      invariant gotLost ==> run == Outcome(robot.State(), env.lostRobots, true, None)
    {
      var e;
      gotLost, e := robot.Instruct([instructions[i]], env);
      if e.Some? {
        return "", e;
      }
      i := i + 1;
    }
    return PrintRobotPos(robot.State()), None;
  }

  // ---------------------------------------------------------------------
  // Properties of a run

  lemma RunEmpty(p: Pose, b: Bounds, scent: set<Cell>)
    ensures Run("", p, b, scent) == Outcome(p, scent, false, None)
  {
  }

  /** Instructions are applied strictly in order: running `u + v` is running
      `u` and then, unless that failed or lost the robot, running `v` from
      where `u` left off. */
  lemma {:induction false} RunAppend(u: string, v: string, p: Pose, b: Bounds, scent: set<Cell>)
    ensures var o := Run(u, p, b, scent);
      Run(u + v, p, b, scent) ==
        if o.err.Some? || o.gotLost then o else Run(v, o.pose, b, o.scent)
    decreases |u|
  {
    if |u| == 0 {
      assert u + v == v;
    } else if !p.lost {
      var o1 := Instructed(p, b, scent, [u[0]]);
      assert (u + v)[0] == u[0];
      assert (u + v)[1..] == u[1..] + v;
      if !(o1.err.Some? || o1.gotLost) {
        RunAppend(u[1..], v, o1.pose, b, o1.scent);
      }
    }
  }

  /** The run stops at the first step that loses the robot: whatever
      follows is ignored. */
  lemma RunIgnoresRestAfterLoss(u: string, v: string, p: Pose, b: Bounds, scent: set<Cell>)
    requires Run(u, p, b, scent).pose.lost
    ensures Run(u + v, p, b, scent) == Run(u, p, b, scent)
  {
    RunAppend(u, v, p, b, scent);
  }

  /** Over a whole run the lost flag never goes back, the scent only grows,
      and it grows only when the robot got lost in this run, where it stood. */
  lemma {:induction false} RunMonotone(instructions: string, p: Pose, b: Bounds, scent: set<Cell>)
    ensures var o := Run(instructions, p, b, scent);
      (p.lost ==> o.pose == p) && scent <= o.scent
    ensures var o := Run(instructions, p, b, scent);
      o.scent != scent ==> (!p.lost && o.pose.lost && o.gotLost && o.err == None)
    ensures var o := Run(instructions, p, b, scent);
      o.gotLost && o.err == None ==> o.pose.lost
    decreases |instructions|
  {
    if |instructions| > 0 && !p.lost {
      var o1 := Instructed(p, b, scent, [instructions[0]]);
      InstructedMonotone(p, b, scent, [instructions[0]]);
      if !(o1.err.Some? || o1.gotLost) {
        RunMonotone(instructions[1..], o1.pose, b, o1.scent);
      }
    }
  }

  /** An instruction other than "F", "L" or "R" aborts the run: the
      robot and the scent stay as the instructions before it left them, and
      the instructions after it are never applied. */
  lemma RunAbortsOnUnknownInstruction(u: string, c: char, v: string, p: Pose, b: Bounds, scent: set<Cell>)
    requires c !in "FLR"
    requires Run(u, p, b, scent).err == None && !Run(u, p, b, scent).pose.lost
    ensures var o := Run(u, p, b, scent);
      Run(u + [c] + v, p, b, scent) == Outcome(o.pose, o.scent, false, Some(InvalidInstruction))
  {
    RunMonotone(u, p, b, scent);
    RunAppend(u, [c] + v, p, b, scent);
    assert u + [c] + v == u + ([c] + v);
    assert ([c] + v)[0] == c;
    UnknownInstructionRejected(Run(u, p, b, scent).pose, b, Run(u, p, b, scent).scent, [c]);
  }

  /** A robot that starts on the grid ends on it, and the scent stays off
      the grid. */
  lemma {:induction false} RunStaysInGrid(instructions: string, p: Pose, b: Bounds, scent: set<Cell>)
    requires InGrid(b, p.x, p.y) && OffGrid(b, scent)
    ensures var o := Run(instructions, p, b, scent);
      InGrid(b, o.pose.x, o.pose.y) && OffGrid(b, o.scent)
    decreases |instructions|
  {
    if |instructions| > 0 && !p.lost {
      var o1 := Instructed(p, b, scent, [instructions[0]]);
      InstructedStaysInGrid(p, b, scent, [instructions[0]]);
      InstructedKeepsScentOffGrid(p, b, scent, [instructions[0]]);
      if !(o1.err.Some? || o1.gotLost) {
        RunStaysInGrid(instructions[1..], o1.pose, b, o1.scent);
      }
    }
  }

  /** Only turns: the robot keeps its place and lost flag, the scent does
      not change, and with a valid orientation the run succeeds. */
  lemma {:induction false} TurnsOnlyKeepPlace(instructions: string, p: Pose, b: Bounds, scent: set<Cell>)
    requires forall i :: 0 <= i < |instructions| ==> instructions[i] in "LR"
    ensures var o := Run(instructions, p, b, scent);
      o.pose.x == p.x && o.pose.y == p.y && o.pose.lost == p.lost && o.scent == scent
    ensures HeadingOf(p.orientation).Some? ==> Run(instructions, p, b, scent).err == None
    decreases |instructions|
  {
    if |instructions| > 0 && !p.lost {
      var o1 := Instructed(p, b, scent, [instructions[0]]);
      TurnsKeepPlace(p, scent);
      if !(o1.err.Some? || o1.gotLost) {
        assert HeadingOf(p.orientation).Some? ==> HeadingOf(o1.pose.orientation).Some?;
        TurnsOnlyKeepPlace(instructions[1..], o1.pose, b, o1.scent);
      }
    }
  }

  /** `n` copies of the instruction `c`. */
  function Repeat(c: char, n: nat): (s: string)
    ensures |s| == n && forall i :: 0 <= i < n ==> s[i] == c
  {
    if n == 0 then "" else [c] + Repeat(c, n - 1)
  }

  /** A run of `n` right turns leaves a robot facing `h` facing
      `Rights(h, n)`, in place, with the scent unchanged and no error. */
  lemma {:induction false} RunRights(h: Heading, n: nat, p: Pose, b: Bounds, scent: set<Cell>)
    requires p.orientation == Letter(h) && !p.lost
    ensures Run(Repeat('R', n), p, b, scent)
      == Outcome(p.(orientation := Letter(Rights(h, n))), scent, false, None)
    decreases n
  {
    if n > 0 {
      var q := p.(orientation := Letter(Right(h)));
      assert Repeat('R', n)[1..] == Repeat('R', n - 1);
      assert Run(Repeat('R', n), p, b, scent) == Run(Repeat('R', n - 1), q, b, scent);
      RunRights(Right(h), n - 1, q, b, scent);
      TurnsShift(h, n - 1);
    }
  }

  /** A run of `n` left turns leaves a robot facing `h` facing
      `Lefts(h, n)`, in place, with the scent unchanged and no error. */
  lemma {:induction false} RunLefts(h: Heading, n: nat, p: Pose, b: Bounds, scent: set<Cell>)
    requires p.orientation == Letter(h) && !p.lost
    ensures Run(Repeat('L', n), p, b, scent)
      == Outcome(p.(orientation := Letter(Lefts(h, n))), scent, false, None)
    decreases n
  {
    if n > 0 {
      var q := p.(orientation := Letter(Left(h)));
      assert Repeat('L', n)[1..] == Repeat('L', n - 1);
      assert Run(Repeat('L', n), p, b, scent) == Run(Repeat('L', n - 1), q, b, scent);
      RunLefts(Left(h), n - 1, q, b, scent);
      TurnsShift(h, n - 1);
    }
  }

  /** First robot of the sample session on a 5 x 3 grid: it walks a loop
      back to its start; every step stays on the grid, so no off-grid scent
      can interfere. */
  lemma SampleFirstRobot(scent: set<Cell>)
    requires OffGrid(Bounds(5, 3), scent)
    ensures Run("RFRFRFRF", Pose(1, 1, "E", false), Bounds(5, 3), scent)
      == Outcome(Pose(1, 1, "E", false), scent, false, None)
  {
  }

  /** Second robot: unless (3, 4) is already scented it is lost stepping
      north from (3, 3) and leaves scent at (3, 4); the instructions after
      the fall are ignored. */
  lemma SampleSecondRobot(scent: set<Cell>)
    requires OffGrid(Bounds(5, 3), scent) && (3, 4) !in scent
    ensures Run("FRRFLLFFRRFLL", Pose(3, 2, "N", false), Bounds(5, 3), scent)
      == Outcome(Pose(3, 3, "N", true), scent + {(3, 4)}, true, None)
  {
    var b := Bounds(5, 3);
    var s := "FRRFLLFFRRFLL";
    assert Run(s[0..], Pose(3, 2, "N", false), b, scent) == Run(s[1..], Pose(3, 3, "N", false), b, scent);
    assert Run(s[1..], Pose(3, 3, "N", false), b, scent) == Run(s[2..], Pose(3, 3, "E", false), b, scent);
    assert Run(s[2..], Pose(3, 3, "E", false), b, scent) == Run(s[3..], Pose(3, 3, "S", false), b, scent);
    assert Run(s[3..], Pose(3, 3, "S", false), b, scent) == Run(s[4..], Pose(3, 2, "S", false), b, scent);
    assert Run(s[4..], Pose(3, 2, "S", false), b, scent) == Run(s[5..], Pose(3, 2, "E", false), b, scent);
    assert Run(s[5..], Pose(3, 2, "E", false), b, scent) == Run(s[6..], Pose(3, 2, "N", false), b, scent);
    assert Run(s[6..], Pose(3, 2, "N", false), b, scent) == Run(s[7..], Pose(3, 3, "N", false), b, scent);
    assert Run(s[7..], Pose(3, 3, "N", false), b, scent)
      == Outcome(Pose(3, 3, "N", true), scent + {(3, 4)}, true, None);
  }

  /** Third robot: its walk reaches (3, 3) facing north, and the next step
      leads to (3, 4). With scent there, the step is skipped and the robot
      ends at (2, 3) facing south; without it, the robot is lost at (3, 3). */
  lemma SampleThirdRobot(scent: set<Cell>)
    requires OffGrid(Bounds(5, 3), scent)
    ensures (3, 4) in scent ==>
      Run("LLFFFLFLFL", Pose(0, 3, "W", false), Bounds(5, 3), scent)
        == Outcome(Pose(2, 3, "S", false), scent, false, None)
    ensures (3, 4) !in scent ==>
      Run("LLFFFLFLFL", Pose(0, 3, "W", false), Bounds(5, 3), scent)
        == Outcome(Pose(3, 3, "N", true), scent + {(3, 4)}, true, None)
  {
    var b := Bounds(5, 3);
    var s := "LLFFFLFLFL";
    assert Run(s[0..], Pose(0, 3, "W", false), b, scent) == Run(s[1..], Pose(0, 3, "S", false), b, scent);
    assert Run(s[1..], Pose(0, 3, "S", false), b, scent) == Run(s[2..], Pose(0, 3, "E", false), b, scent);
    assert Run(s[2..], Pose(0, 3, "E", false), b, scent) == Run(s[3..], Pose(1, 3, "E", false), b, scent);
    assert Run(s[3..], Pose(1, 3, "E", false), b, scent) == Run(s[4..], Pose(2, 3, "E", false), b, scent);
    assert Run(s[4..], Pose(2, 3, "E", false), b, scent) == Run(s[5..], Pose(3, 3, "E", false), b, scent);
    assert Run(s[5..], Pose(3, 3, "E", false), b, scent) == Run(s[6..], Pose(3, 3, "N", false), b, scent);
    if (3, 4) in scent {
      assert Run(s[6..], Pose(3, 3, "N", false), b, scent) == Run(s[7..], Pose(3, 3, "N", false), b, scent);
      assert Run(s[7..], Pose(3, 3, "N", false), b, scent) == Run(s[8..], Pose(3, 3, "W", false), b, scent);
      assert Run(s[8..], Pose(3, 3, "W", false), b, scent) == Run(s[9..], Pose(2, 3, "W", false), b, scent);
      assert Run(s[9..], Pose(2, 3, "W", false), b, scent) == Run(s[10..], Pose(2, 3, "S", false), b, scent);
    }
  }

  /** One record of the main loop (main.go:98-105): a start line, then its
      instruction line, run against the shared environment. */
  method ProcessRecord(robotPos: string, instructions: string, env: Environment)
    returns (line: string, err: Option<Error>)
    requires |robotPos| > OrientationPos
    modifies env`lostRobots
    ensures var o := Run(instructions, ParseRobot(robotPos), env.Limits(), old(env.lostRobots));
      env.lostRobots == o.scent && err == o.err && (err == None ==> line == PrintRobotPos(o.pose))
  {
    var robot := GetInputRobot(robotPos);
    line, err := ProcessInputInstruction(instructions, robot, env);
  }

  /** The start lines and printed lines of the sample session. */
  lemma SampleLines()
    ensures ParseRobot("1 1 E") == Pose(1, 1, "E", false)
    ensures ParseRobot("3 2 N") == Pose(3, 2, "N", false)
    ensures ParseRobot("0 3 W") == Pose(0, 3, "W", false)
    ensures PrintRobotPos(Pose(1, 1, "E", false)) == "1 1 E "
    ensures PrintRobotPos(Pose(3, 3, "N", true)) == "3 3 N LOST"
    ensures PrintRobotPos(Pose(2, 3, "S", false)) == "2 3 S "
  {
  }

  /** The sample session driven through the objects, as the main loop
      drives them: one environment for all robots, so the scent the second
      robot leaves is what saves the third. */
  method SampleSession() returns (lines: seq<string>)
    ensures lines == ["1 1 E ", "3 3 N LOST", "2 3 S "]
  {
    var created := CreateEnvWithLimits(5, 3);
    var env := created.value;
    SampleLines();

    SampleFirstRobot(env.lostRobots);
    var line1, _ := ProcessRecord("1 1 E", "RFRFRFRF", env);
    assert line1 == PrintRobotPos(Pose(1, 1, "E", false));

    SampleSecondRobot(env.lostRobots);
    var line2, _ := ProcessRecord("3 2 N", "FRRFLLFFRRFLL", env);
    assert line2 == PrintRobotPos(Pose(3, 3, "N", true));
    assert (3, 4) in env.lostRobots;

    SampleThirdRobot(env.lostRobots);
    var line3, _ := ProcessRecord("0 3 W", "LLFFFLFLFL", env);
    assert line3 == PrintRobotPos(Pose(2, 3, "S", false));

    lines := [line1, line2, line3];
  }
}
