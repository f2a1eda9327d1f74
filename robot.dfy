/** A robot on the grid: its position, orientation and lost flag, and the
    instructions that turn and move it (robot.go). The functions below give
    the meaning of each instruction on values; the class Robot performs them
    in place and is proved equal to them. */
module Robots {
  import opened Wrappers
  import opened Decimal
  import opened Headings
  import opened Environments

  /** The robot's fields as a value. `orientation` is the letter as the
      source stores it, which may be any string. */
  datatype Pose = Pose(x: int, y: int, orientation: string, lost: bool)

  /** What one instruction leaves behind: the robot, the lost set, and the
      source's `(bool, error)` pair. */
  datatype Outcome = Outcome(pose: Pose, scent: set<Cell>, gotLost: bool, err: Option<Error>)

  function TurnedRight(p: Pose, scent: set<Cell>): Outcome {
    match HeadingOf(p.orientation)
    case Some(h) => Outcome(p.(orientation := Letter(Right(h))), scent, false, None)
    case None => Outcome(p, scent, true, Some(InvalidOrientation))
  }

  function TurnedLeft(p: Pose, scent: set<Cell>): Outcome {
    match HeadingOf(p.orientation)
    case Some(h) => Outcome(p.(orientation := Letter(Left(h))), scent, false, None)
    case None => Outcome(p, scent, true, Some(InvalidOrientation))
  }

  /** `advance`: step onto (x, y) if it is on the grid, otherwise stay,
      become lost and record (x, y). */
  function Advanced(p: Pose, x: int, y: int, b: Bounds, scent: set<Cell>): Outcome {
    if y < 0 || x < 0 || y > b.limitY || x > b.limitX then
      Outcome(p.(lost := true), scent + {(x, y)}, true, None)
    else
      Outcome(p.(x := x, y := y), scent, false, None)
  }

  /** `Move`: skip the step when the cell ahead is scented, otherwise advance. */
  function Moved(p: Pose, b: Bounds, scent: set<Cell>): Outcome {
    match HeadingOf(p.orientation)
    case Some(h) =>
      var c := Ahead(p.x, p.y, h);
      if c in scent then Outcome(p, scent, false, None)
      else Advanced(p, c.0, c.1, b, scent)
    case None => Outcome(p, scent, true, Some(InvalidOrientation))
  }

  /** `Instruct`: dispatch on the one-letter instruction. */
  function Instructed(p: Pose, b: Bounds, scent: set<Cell>, direction: string): Outcome {
    if direction == "F" then Moved(p, b, scent)
    else if direction == "L" then TurnedLeft(p, scent)
    else if direction == "R" then TurnedRight(p, scent)
    else Outcome(p, scent, false, Some(InvalidInstruction))
  }

  /** `printRobotPos`: "x y O " followed by "LOST" when lost (so a robot
      that is not lost is printed with a trailing space). The line starts
      with the lost-map key of the position, and its end tells the lost
      flag apart. */
  function PrintRobotPos(p: Pose): (line: string)
    ensures |line| >= 5 && |line| >= |Key(p.x, p.y)| + 2
    ensures line[..|Key(p.x, p.y)| + 1] == Key(p.x, p.y) + " "
    ensures p.lost <==> line[|line| - 4..] == "LOST"
    ensures !p.lost <==> line[|line| - 1] == ' '
  {
    var head := Itoa(p.x) + " " + Itoa(p.y) + " " + p.orientation + " ";
    var line := head + (if p.lost then "LOST" else "");
    assert head == Key(p.x, p.y) + " " + (p.orientation + " ");
    assert line[..|Key(p.x, p.y)| + 1] == head[..|Key(p.x, p.y)| + 1];
    assert !p.lost ==> line[|line| - 1] == ' ' && line[|line| - 4..][3] == ' ';
    line
  }

  // ---------------------------------------------------------------------
  // Properties of single instructions

  /** A right turn, then a left turn (or the other way round), restores the
      robot; both turns keep position, lost flag and scent and report
      `(false, nil)` for a valid orientation, and `(true, Invalid orientation)`
      with nothing changed otherwise. */
  lemma TurnsKeepPlace(p: Pose, scent: set<Cell>)
    ensures var r := TurnedRight(p, scent);
      r.pose.x == p.x && r.pose.y == p.y && r.pose.lost == p.lost && r.scent == scent
    ensures var l := TurnedLeft(p, scent);
      l.pose.x == p.x && l.pose.y == p.y && l.pose.lost == p.lost && l.scent == scent
    ensures HeadingOf(p.orientation).Some? <==> TurnedRight(p, scent).err == None
    ensures HeadingOf(p.orientation).Some? <==> TurnedLeft(p, scent).err == None
    ensures HeadingOf(p.orientation).Some? ==>
      !TurnedRight(p, scent).gotLost && !TurnedLeft(p, scent).gotLost
    ensures HeadingOf(p.orientation).None? ==>
      TurnedRight(p, scent) == TurnedLeft(p, scent) == Outcome(p, scent, true, Some(InvalidOrientation))
  {
  }

  /** On any robot, a left turn undoes a right turn and vice versa; with an
      invalid orientation neither turn changes the robot. */
  lemma LeftUndoesRight(p: Pose, scent: set<Cell>)
    ensures TurnedLeft(TurnedRight(p, scent).pose, scent).pose == p
    ensures TurnedRight(TurnedLeft(p, scent).pose, scent).pose == p
  {
  }

  /** Four right turns, or four left turns, restore the orientation. */
  lemma FourTurnsRestore(p: Pose, scent: set<Cell>)
    ensures var r1 := TurnedRight(p, scent).pose;
      var r2 := TurnedRight(r1, scent).pose;
      var r3 := TurnedRight(r2, scent).pose;
      TurnedRight(r3, scent).pose == p
    ensures var l1 := TurnedLeft(p, scent).pose;
      var l2 := TurnedLeft(l1, scent).pose;
      var l3 := TurnedLeft(l2, scent).pose;
      TurnedLeft(l3, scent).pose == p
  {
  }

  /** The scent rule: a step onto a scented cell changes nothing and
      reports `(false, nil)`. */
  lemma ScentedStepSkipped(p: Pose, b: Bounds, scent: set<Cell>)
    requires HeadingOf(p.orientation).Some?
    requires Ahead(p.x, p.y, HeadingOf(p.orientation).value) in scent
    ensures Moved(p, b, scent) == Outcome(p, scent, false, None)
  {
  }

  /** A step off the grid onto an unscented cell loses the robot where it
      stands and records exactly that off-grid cell. */
  lemma StepOffGridLoses(p: Pose, b: Bounds, scent: set<Cell>)
    requires HeadingOf(p.orientation).Some?
    requires var c := Ahead(p.x, p.y, HeadingOf(p.orientation).value);
      c !in scent && !InGrid(b, c.0, c.1)
    ensures var o := Moved(p, b, scent);
      o.pose == p.(lost := true) && o.gotLost && o.err == None
      && o.scent == scent + {Ahead(p.x, p.y, HeadingOf(p.orientation).value)}
  {
  }

  /** A step onto an unscented cell of the grid moves the robot there and
      leaves the scent alone. */
  lemma StepOnGridMoves(p: Pose, b: Bounds, scent: set<Cell>)
    requires HeadingOf(p.orientation).Some?
    requires var c := Ahead(p.x, p.y, HeadingOf(p.orientation).value);
      c !in scent && InGrid(b, c.0, c.1)
    ensures var o := Moved(p, b, scent);
      var c := Ahead(p.x, p.y, HeadingOf(p.orientation).value);
      o.pose == p.(x := c.0, y := c.1) && !o.gotLost && o.err == None && o.scent == scent
  {
  }

  /** A repeated fall is a no-op: once a robot has been lost stepping from
      `p`, a robot in the same place facing the same way that tries the same
      step stays where it is, is not lost, and changes nothing. */
  lemma RepeatedFallIsNoOp(p: Pose, b: Bounds, scent: set<Cell>)
    requires Moved(p, b, scent).gotLost && Moved(p, b, scent).err == None
    ensures Moved(p, b, Moved(p, b, scent).scent) == Outcome(p, Moved(p, b, scent).scent, false, None)
  {
  }

  /** Any instruction other than "F", "L" or "R" is an error and changes
      nothing. */
  lemma UnknownInstructionRejected(p: Pose, b: Bounds, scent: set<Cell>, direction: string)
    requires direction !in {"F", "L", "R"}
    ensures Instructed(p, b, scent, direction) == Outcome(p, scent, false, Some(InvalidInstruction))
  {
  }

  /** Effect of one instruction on the lost flag and the scent: the flag
      never goes back, the scent only grows, and it grows (by one off-grid
      cell) exactly when the robot gets lost. */
  lemma InstructedMonotone(p: Pose, b: Bounds, scent: set<Cell>, direction: string)
    ensures var o := Instructed(p, b, scent, direction);
      (p.lost ==> o.pose.lost) && scent <= o.scent
    ensures var o := Instructed(p, b, scent, direction);
      o.scent != scent ==>
        (o.gotLost && o.pose.lost && o.err == None && o.pose.x == p.x && o.pose.y == p.y)
    ensures var o := Instructed(p, b, scent, direction);
      o.gotLost && o.err == None ==> o.pose.lost && o.scent != scent
    ensures var o := Instructed(p, b, scent, direction);
      o.scent != scent ==>
        o.scent == scent + {Ahead(p.x, p.y, HeadingOf(p.orientation).value)}
        && !InGrid(b, Ahead(p.x, p.y, HeadingOf(p.orientation).value).0,
                      Ahead(p.x, p.y, HeadingOf(p.orientation).value).1)
  {
  }

  /** A robot that starts on the grid is still on it after any instruction. */
  lemma InstructedStaysInGrid(p: Pose, b: Bounds, scent: set<Cell>, direction: string)
    requires InGrid(b, p.x, p.y)
    ensures var o := Instructed(p, b, scent, direction); InGrid(b, o.pose.x, o.pose.y)
  {
  }

  /** The scent holds only off-grid cells, and each instruction keeps it so;
      hence the scent rule never blocks a step that stays on the grid. */
  lemma InstructedKeepsScentOffGrid(p: Pose, b: Bounds, scent: set<Cell>, direction: string)
    requires OffGrid(b, scent)
    ensures OffGrid(b, Instructed(p, b, scent, direction).scent)
  {
  }

  class Robot {
    var lost: bool
    var orientation: string
    var x: int
    var y: int

    function State(): Pose
      reads this
    {
      Pose(x, y, orientation, lost)
    }

    /** The struct literal `Robot{X: x, Y: y, Lost: false}` (main.go:42):
        the orientation is Go's zero string until it is set. */
    constructor (x: int, y: int)
      ensures State() == Pose(x, y, "", false)
    {
      this.x := x;
      this.y := y;
      orientation := "";
      lost := false;
    }

    /** Called by the source but not defined in it; modelled as storing the
        given letter. */
    method SetOrientation(o: string)
      modifies this`orientation
      ensures State() == old(State()).(orientation := o)
    {
      orientation := o;
    }

    method TurnRight() returns (gotLost: bool, err: Option<Error>)
      modifies this`orientation
      ensures var r := TurnedRight(old(State()), {});
        State() == r.pose && gotLost == r.gotLost && err == r.err
    {
      if orientation == "N" {
        orientation := "E";
        return false, None;
      } else if orientation == "E" {
        orientation := "S";
        return false, None;
      } else if orientation == "W" {
        orientation := "N";
        return false, None;
      } else if orientation == "S" {
        orientation := "W";
        return false, None;
      } else {
        return true, Some(InvalidOrientation);
      }
    }

    method TurnLeft() returns (gotLost: bool, err: Option<Error>)
      modifies this`orientation
      ensures var l := TurnedLeft(old(State()), {});
        State() == l.pose && gotLost == l.gotLost && err == l.err
    {
      if orientation == "N" {
        orientation := "W";
        return false, None;
      } else if orientation == "E" {
        orientation := "N";
        return false, None;
      } else if orientation == "W" {
        orientation := "S";
        return false, None;
      } else if orientation == "S" {
        orientation := "E";
        return false, None;
      } else {
        return true, Some(InvalidOrientation);
      }
    }

    method Advance(x: int, y: int, env: Environment) returns (gotLost: bool)
      modifies this, env`lostRobots
      ensures var o := Advanced(old(State()), x, y, env.Limits(), old(env.lostRobots));
        State() == o.pose && env.lostRobots == o.scent && gotLost == o.gotLost
    {
      if y < 0 || x < 0 || y > env.limitY || x > env.limitX {
        lost := true;
        env.AddLostRobot(x, y);
        return true;
      } else {
        this.x := x;
        this.y := y;
        return false;
      }
    }

    method Move(env: Environment) returns (gotLost: bool, err: Option<Error>)
      modifies this, env`lostRobots
      ensures var o := Moved(old(State()), env.Limits(), old(env.lostRobots));
        State() == o.pose && env.lostRobots == o.scent && gotLost == o.gotLost && err == o.err
    {
      if orientation == "N" {
        if env.CheckLostRobot(x, y + 1) {
          return false, None;
        }
        gotLost := Advance(x, y + 1, env);
        return gotLost, None;
      } else if orientation == "E" {
        if env.CheckLostRobot(x + 1, y) {
          return false, None;
        }
        gotLost := Advance(x + 1, y, env);
        return gotLost, None;
      } else if orientation == "W" {
        if env.CheckLostRobot(x - 1, y) {
          return false, None;
        }
        gotLost := Advance(x - 1, y, env);
        return gotLost, None;
      } else if orientation == "S" {
        if env.CheckLostRobot(x, y - 1) {
          return false, None;
        }
        gotLost := Advance(x, y - 1, env);
        return gotLost, None;
      } else {
        return true, Some(InvalidOrientation);
      }
    }

    method Instruct(direction: string, env: Environment) returns (gotLost: bool, err: Option<Error>)
      modifies this, env`lostRobots
      ensures var o := Instructed(old(State()), env.Limits(), old(env.lostRobots), direction);
        State() == o.pose && env.lostRobots == o.scent && gotLost == o.gotLost && err == o.err
    {
      if direction == "F" {
        gotLost, err := Move(env);
      } else if direction == "L" {
        gotLost, err := TurnLeft();
      } else if direction == "R" {
        gotLost, err := TurnRight();
      } else {
        gotLost, err := false, Some(InvalidInstruction);
      }
    }
  }
}
