/** The four orientations a robot can face, their letters, and the turns
    between them (robot.go:50-87). */
module Headings {
  import opened Wrappers

  /** Compass points in clockwise order. */
  datatype Heading = North | East | South | West

  /** Place of a heading in the clockwise cycle N, E, S, W. */
  function Index(h: Heading): (i: nat)
    ensures i < 4
  {
    match h
    case North => 0
    case East => 1
    case South => 2
    case West => 3
  }

  lemma IndexInjective(a: Heading, b: Heading)
    requires Index(a) == Index(b)
    ensures a == b
  {
  }

  /** The switch of `TurnRight`: one step clockwise. */
  function Right(h: Heading): (r: Heading)
    ensures Index(r) == (Index(h) + 1) % 4
  {
    match h
    case North => East
    case East => South
    case West => North
    case South => West
  }

  /** The switch of `TurnLeft`: one step counter-clockwise. */
  function Left(h: Heading): (r: Heading)
    ensures Index(r) == (Index(h) + 3) % 4
  {
    match h
    case North => West
    case East => North
    case West => South
    case South => East
  }

  lemma LeftInvertsRight(h: Heading)
    ensures Left(Right(h)) == h && Right(Left(h)) == h
  {
  }

  /** `n` right turns in a row. */
  function Rights(h: Heading, n: nat): Heading
    decreases n
  {
    if n == 0 then h else Right(Rights(h, n - 1))
  }

  /** `n` left turns in a row. */
  function Lefts(h: Heading, n: nat): Heading
    decreases n
  {
    if n == 0 then h else Left(Lefts(h, n - 1))
  }

  /** Turning right `n` times advances the cycle by `n` modulo 4. */
  lemma {:induction false} RightsIndex(h: Heading, n: nat)
    ensures Index(Rights(h, n)) == (Index(h) + n) % 4
    decreases n
  {
    if n > 0 {
      RightsIndex(h, n - 1);
    }
  }

  /** Turning left `n` times moves the cycle back by `n` modulo 4. */
  lemma {:induction false} LeftsIndex(h: Heading, n: nat)
    ensures (Index(Lefts(h, n)) + n) % 4 == Index(h)
    decreases n
  {
    if n > 0 {
      LeftsIndex(h, n - 1);
    }
  }

  /** A first turn, then `n` more, is `n + 1` turns. */
  lemma TurnsShift(h: Heading, n: nat)
    ensures Rights(Right(h), n) == Rights(h, n + 1)
    ensures Lefts(Left(h), n) == Lefts(h, n + 1)
  {
    RightsIndex(Right(h), n);
    RightsIndex(h, n + 1);
    IndexInjective(Rights(Right(h), n), Rights(h, n + 1));
    LeftsIndex(Left(h), n);
    LeftsIndex(h, n + 1);
    IndexInjective(Lefts(Left(h), n), Lefts(h, n + 1));
  }

  /** Right turns, and left turns, have period 4. */
  lemma TurnsHavePeriodFour(h: Heading, n: nat)
    ensures Rights(h, n + 4) == Rights(h, n)
    ensures Lefts(h, n + 4) == Lefts(h, n)
    ensures Rights(h, 4) == h && Lefts(h, 4) == h
  {
    RightsIndex(h, n + 4);
    RightsIndex(h, n);
    IndexInjective(Rights(h, n + 4), Rights(h, n));
    LeftsIndex(h, n + 4);
    LeftsIndex(h, n);
    IndexInjective(Lefts(h, n + 4), Lefts(h, n));
    RightsIndex(h, 4);
    IndexInjective(Rights(h, 4), h);
    LeftsIndex(h, 4);
    IndexInjective(Lefts(h, 4), h);
  }

  /** The orientation letter the source stores, read as a heading; any other
      string is the source's "Invalid orientation". */
  function HeadingOf(o: string): (r: Option<Heading>)
    ensures r.Some? <==> o in {"N", "E", "S", "W"}
  {
    if o == "N" then Some(North)
    else if o == "E" then Some(East)
    else if o == "S" then Some(South)
    else if o == "W" then Some(West)
    else None
  }

  /** The one-letter string of a heading. */
  function Letter(h: Heading): (o: string)
    ensures HeadingOf(o) == Some(h) && |o| == 1
  {
    match h
    case North => "N"
    case East => "E"
    case South => "S"
    case West => "W"
  }

  lemma LetterOfHeadingOf(o: string)
    requires HeadingOf(o).Some?
    ensures Letter(HeadingOf(o).value) == o
  {
  }

  /** The cell one step ahead of (x, y) when facing `h`: a neighbour of
      (x, y), east and north being the growing coordinates. */
  function Ahead(x: int, y: int, h: Heading): (c: (int, int))
    ensures c.0 - x == (if h == East then 1 else if h == West then -1 else 0)
    ensures c.1 - y == (if h == North then 1 else if h == South then -1 else 0)
  {
    match h
    case North => (x, y + 1)
    case East => (x + 1, y)
    case West => (x - 1, y)
    case South => (x, y - 1)
  }

  /** A step ahead, a half turn and another step ahead lead back to the
      starting cell. */
  lemma AheadAndBack(x: int, y: int, h: Heading)
    ensures var c := Ahead(x, y, h); Ahead(c.0, c.1, Rights(h, 2)) == (x, y)
  {
  }
}
