/** The fencing enemy's patrol: it walks clockwise (on screen, where y grows
    downward) around a square of side 80 centred on Home, 4 units per tick,
    heading right, then down, then left, then up; on reaching a side it is
    clamped onto that side and turns. */
module Fencing {
  import opened Geometry

  datatype Direction = Right | Down | Left | Up

  const SPEED: real := 4.0
  const SQUARE_SIZE: real := 80.0
  /** Ticks to walk one side from corner to corner (80 / 4). */
  const STEPS_PER_SIDE: nat := 20

  /** The patrolling part of a fencing enemy's state. */
  datatype Patrol = Patrol(x: real, y: real, dir: Direction)

  /** The heading that follows `d`: right, down, left, up, right, ... */
  function Next(d: Direction): Direction
  {
    match d
    case Right => Down
    case Down => Left
    case Left => Up
    case Up => Right
  }

  function SquareLeft(h: Home): real { h.x as real - SQUARE_SIZE / 2.0 }
  function SquareRight(h: Home): real { h.x as real + SQUARE_SIZE / 2.0 }
  function SquareTop(h: Home): real { h.y as real - SQUARE_SIZE / 2.0 }
  function SquareBottom(h: Home): real { h.y as real + SQUARE_SIZE / 2.0 }

  /** The point lies in the closed fence square around Home. */
  predicate InSquare(h: Home, x: real, y: real)
  {
    SquareLeft(h) <= x <= SquareRight(h) && SquareTop(h) <= y <= SquareBottom(h)
  }

  /** The point lies on the side of the square that heading `d` walks toward. */
  predicate OnSide(h: Home, x: real, y: real, d: Direction)
  {
    match d
    case Right => x == SquareRight(h)
    case Down => y == SquareBottom(h)
    case Left => x == SquareLeft(h)
    case Up => y == SquareTop(h)
  }

  /** How far `r` lies beyond `p` in the direction of heading `d`. */
  function Advance(d: Direction, p: Patrol, r: Patrol): real
  {
    match d
    case Right => r.x - p.x
    case Down => r.y - p.y
    case Left => p.x - r.x
    case Up => p.y - r.y
  }

  /** One tick of FencingEnemy.update's movement.  The heading either stays
      or becomes the next one, and it changes exactly when the enemy lands on
      the side it was heading for; only the coordinate along the heading
      changes; from inside the square the enemy stays inside and moves
      between 0 and 4 units forward. */
  function Step(h: Home, p: Patrol): (r: Patrol)
    ensures r.dir == p.dir || r.dir == Next(p.dir)
    ensures r.dir != p.dir <==> OnSide(h, r.x, r.y, p.dir)
    ensures (p.dir == Right || p.dir == Left) ==> r.y == p.y
    ensures (p.dir == Down || p.dir == Up) ==> r.x == p.x
    ensures InSquare(h, p.x, p.y) ==>
              InSquare(h, r.x, r.y) && 0.0 <= Advance(p.dir, p, r) <= SPEED
  {
    match p.dir
    case Right =>
      var x := p.x + SPEED;
      if x >= SquareRight(h) then Patrol(SquareRight(h), p.y, Down) else Patrol(x, p.y, Right)
    case Down =>
      var y := p.y + SPEED;
      if y >= SquareBottom(h) then Patrol(p.x, SquareBottom(h), Left) else Patrol(p.x, y, Down)
    case Left =>
      var x := p.x - SPEED;
      if x <= SquareLeft(h) then Patrol(SquareLeft(h), p.y, Up) else Patrol(x, p.y, Left)
    case Up =>
      var y := p.y - SPEED;
      if y <= SquareTop(h) then Patrol(p.x, SquareTop(h), Right) else Patrol(p.x, y, Up)
  }

  /** The patrol after `n` ticks. */
  function Run(h: Home, p: Patrol, n: nat): Patrol
    decreases n
  {
    if n == 0 then p else Run(h, Step(h, p), n - 1)
  }

  /** An enemy that starts inside the fence square never leaves it. */
  lemma {:induction false} RunStaysInSquare(h: Home, p: Patrol, n: nat)
    requires InSquare(h, p.x, p.y)
    ensures InSquare(h, Run(h, p, n).x, Run(h, p, n).y)
    decreases n
  {
    if n > 0 {
      RunStaysInSquare(h, Step(h, p), n - 1);
    }
  }

  /** Running a + b ticks is running a ticks, then b more. */
  lemma {:induction false} RunAdd(h: Home, p: Patrol, a: nat, b: nat)
    ensures Run(h, p, a + b) == Run(h, Run(h, p, a), b)
    decreases a
  {
    if a > 0 {
      RunAdd(h, Step(h, p), a - 1, b);
    }
  }

  /** The patrol `j` ticks after leaving the corner where side `d` begins. */
  function Along(h: Home, d: Direction, j: nat): Patrol
  {
    var s := SPEED * j as real;
    match d
    case Right => Patrol(SquareLeft(h) + s, SquareTop(h), Right)
    case Down => Patrol(SquareRight(h), SquareTop(h) + s, Down)
    case Left => Patrol(SquareRight(h) - s, SquareBottom(h), Left)
    case Up => Patrol(SquareLeft(h), SquareBottom(h) - s, Up)
  }

  /** One tick along a side: the twentieth tick lands on the next corner and turns. */
  lemma StepAlong(h: Home, d: Direction, j: nat)
    requires j < STEPS_PER_SIDE
    ensures Step(h, Along(h, d, j)) ==
            if j + 1 == STEPS_PER_SIDE then Along(h, Next(d), 0) else Along(h, d, j + 1)
  {
  }

  /** From any point `j` ticks along a side, the enemy reaches the next
      corner, turned toward the next side, after the remaining ticks. */
  lemma {:induction false} WalkSide(h: Home, d: Direction, j: nat)
    requires j < STEPS_PER_SIDE
    ensures Run(h, Along(h, d, j), STEPS_PER_SIDE - j) == Along(h, Next(d), 0)
    decreases STEPS_PER_SIDE - j
  {
    StepAlong(h, d, j);
    if j + 1 < STEPS_PER_SIDE {
      WalkSide(h, d, j + 1);
    } else {
      assert Run(h, Step(h, Along(h, d, j)), 0) == Along(h, Next(d), 0);
    }
  }

  /** From a corner, after two sides the enemy is at the opposite corner,
      turned toward the third side. */
  lemma {:induction false} TwoSides(h: Home, d: Direction)
    ensures Run(h, Along(h, d, 0), 2 * STEPS_PER_SIDE) == Along(h, Next(Next(d)), 0)
  {
    WalkSide(h, d, 0);
    WalkSide(h, Next(d), 0);
    RunAdd(h, Along(h, d, 0), STEPS_PER_SIDE, STEPS_PER_SIDE);
  }

  /** From a corner, after three sides the enemy is at the last corner,
      turned toward the fourth side. */
  lemma {:induction false} ThreeSides(h: Home, d: Direction)
    ensures Run(h, Along(h, d, 0), 3 * STEPS_PER_SIDE) == Along(h, Next(Next(Next(d))), 0)
  {
    TwoSides(h, d);
    WalkSide(h, Next(Next(d)), 0);
    RunAdd(h, Along(h, d, 0), 2 * STEPS_PER_SIDE, STEPS_PER_SIDE);
  }

  /** The patrol is periodic: from a corner, heading along its side, the
      enemy reaches the next three corners after 20, 40 and 60 ticks, turned
      toward the following side each time, and is back at the first corner
      with the same heading after 80 ticks. */
  lemma {:induction false} Lap(h: Home, d: Direction)
    ensures Run(h, Along(h, d, 0), STEPS_PER_SIDE) == Along(h, Next(d), 0)
    ensures Run(h, Along(h, d, 0), 2 * STEPS_PER_SIDE) == Along(h, Next(Next(d)), 0)
    ensures Run(h, Along(h, d, 0), 3 * STEPS_PER_SIDE) == Along(h, Next(Next(Next(d))), 0)
    ensures Run(h, Along(h, d, 0), 4 * STEPS_PER_SIDE) == Along(h, d, 0)
  {
    WalkSide(h, d, 0);
    TwoSides(h, d);
    ThreeSides(h, d);
    WalkSide(h, Next(Next(Next(d))), 0);
    assert Next(Next(Next(Next(d)))) == d;
    RunAdd(h, Along(h, d, 0), 3 * STEPS_PER_SIDE, STEPS_PER_SIDE);
  }
}
