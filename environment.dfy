/** The grid: its inclusive limits and the set of off-grid cells from which
    robots were lost, the "scent" (environment.go). */
module Environments {
  import opened Decimal

  type Cell = (int, int)

  /** Inclusive upper limits of the grid; the lower limits are 0. */
  datatype Bounds = Bounds(limitX: int, limitY: int)

  predicate InGrid(b: Bounds, x: int, y: int) {
    0 <= x <= b.limitX && 0 <= y <= b.limitY
  }

  /** Every recorded scent cell lies outside the grid. */
  ghost predicate OffGrid(b: Bounds, scent: set<Cell>) {
    forall c :: c in scent ==> !InGrid(b, c.0, c.1)
  }

  /** The string key under which the source files a lost position
      (environment.go:25). */
  function Key(x: int, y: int): string {
    Itoa(x) + " " + Itoa(y)
  }

  lemma CharOfJoin(a: string, b: string, i: nat)
    requires i < |a|
    ensures (a + " " + b)[i] == a[i] && (a + " " + b)[|a|] == ' '
  {
  }

  /** Two strings without a space, each joined by one space to a tail, can
      only be equal if the heads and the tails are. */
  lemma SplitAtFirstSpace(a1: string, b1: string, a2: string, b2: string)
    requires ' ' !in a1 && ' ' !in a2
    requires a1 + " " + b1 == a2 + " " + b2
    ensures a1 == a2 && b1 == b2
  {
    var s := a1 + " " + b1;
    if |a1| < |a2| {
      CharOfJoin(a2, b2, |a1|);
      assert false;
    } else if |a2| < |a1| {
      CharOfJoin(a1, b1, |a2|);
      assert false;
    }
    assert a1 == s[..|a1|] == a2;
    assert b1 == s[|a1| + 1..] == b2;
  }

  /** Distinct positions have distinct keys, so a set of pairs holds exactly
      what the source's string-keyed map holds. */
  lemma KeyInjective(x1: int, y1: int, x2: int, y2: int)
    requires Key(x1, y1) == Key(x2, y2)
    ensures x1 == x2 && y1 == y2
  {
    SplitAtFirstSpace(Itoa(x1), Itoa(y1), Itoa(x2), Itoa(y2));
    ItoaInjective(x1, x2);
    ItoaInjective(y1, y2);
  }

  /** The keys the source's map would hold for a set of lost positions. */
  function KeysOf(scent: set<Cell>): set<string> {
    set c | c in scent :: Key(c.0, c.1)
  }

  lemma KeysOfFaithful(scent: set<Cell>, x: int, y: int)
    ensures (x, y) in scent <==> Key(x, y) in KeysOf(scent)
  {
    if Key(x, y) in KeysOf(scent) {
      var c :| c in scent && Key(c.0, c.1) == Key(x, y);
      KeyInjective(c.0, c.1, x, y);
    }
  }

  class Environment {
    /** Positions from which a robot was lost; only ever grows. */
    var lostRobots: set<Cell>
    var limitX: int
    var limitY: int

    /** The struct literal of `createEnvWithLimits` (main.go:31). */
    constructor (limitX: int, limitY: int)
      ensures this.limitX == limitX && this.limitY == limitY
      ensures lostRobots == {}
    {
      this.limitX := limitX;
      this.limitY := limitY;
      lostRobots := {};
    }

    function Limits(): Bounds
      reads this
    {
      Bounds(limitX, limitY)
    }

    /** Whether a robot was lost from (x, y): the key of (x, y) is present
        in the map (every present key maps to true). */
    function CheckLostRobot(x: int, y: int): (r: bool)
      reads this
      ensures r <==> Key(x, y) in KeysOf(lostRobots)
    {
      KeysOfFaithful(lostRobots, x, y);
      (x, y) in lostRobots
    }

    /** Records a loss at (x, y); called by the source but not defined in
        it, modelled as inserting the position. */
    method AddLostRobot(x: int, y: int)
      modifies this`lostRobots
      ensures lostRobots == old(lostRobots) + {(x, y)}
      ensures CheckLostRobot(x, y)
    {
      lostRobots := lostRobots + {(x, y)};
    }
  }
}
