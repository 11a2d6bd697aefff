/** The random-walk enemy: it picks one of four headings once, walks 3 units
    per tick along one axis, and reverses a velocity component when its
    bounding square touches or crosses an arena wall. */
module RandomWalk {
  import opened Geometry

  /** The game's heading names; "up" is +y, as the game assigns it. */
  datatype Heading = Up | Down | Left | Right

  const SPEED: real := 3.0

  /** Position and velocity of a random-walk enemy. */
  datatype Walk = Walk(x: real, y: real, dx: real, dy: real)

  /** The velocity RandomWalkEnemy.__choose_random_direction sets: exactly
      one component is zero and the other is plus or minus the speed. */
  function Velocity(h: Heading): (v: (real, real))
    ensures (v.0 == 0.0) != (v.1 == 0.0)
    ensures Abs(v.0) + Abs(v.1) == SPEED
  {
    match h
    case Up => (0.0, SPEED)
    case Down => (0.0, -SPEED)
    case Left => (-SPEED, 0.0)
    case Right => (SPEED, 0.0)
  }

  /** The four headings give four different velocities. */
  lemma VelocityInjective(a: Heading, b: Heading)
    requires Velocity(a) == Velocity(b)
    ensures a == b
  {
  }

  /** Axis-aligned movement at the walker's speed. */
  predicate Moving(w: Walk)
  {
    (w.dx == 0.0 || w.dy == 0.0) && Abs(w.dx) + Abs(w.dy) == SPEED
  }

  /** The square of side `size` at abscissa x touches or crosses the left or right wall. */
  predicate AtSideWall(x: real, size: int, width: int)
  {
    x + Half(size) >= width as real || x - Half(size) <= 0.0
  }

  /** The square of side `size` at ordinate y touches or crosses the top or bottom wall. */
  predicate AtEndWall(y: real, size: int, height: int)
  {
    y + Half(size) >= height as real || y - Half(size) <= 0.0
  }

  /** One tick of RandomWalkEnemy.update's movement: move by the velocity,
      then reverse each component at most once.  A non-zero component is
      reversed exactly when the new position is at a wall of its axis, even
      when both walls of that axis are touched at once; the speed and the
      axis of movement are kept. */
  function Step(w: Walk, size: int, width: int, height: int): (r: Walk)
    ensures r.x == w.x + w.dx && r.y == w.y + w.dy
    ensures r.dx == w.dx || r.dx == -w.dx
    ensures r.dy == w.dy || r.dy == -w.dy
    ensures w.dx != 0.0 ==> (r.dx != w.dx <==> AtSideWall(r.x, size, width))
    ensures w.dy != 0.0 ==> (r.dy != w.dy <==> AtEndWall(r.y, size, height))
    ensures Moving(w) ==> Moving(r)
  {
    var x, y := w.x + w.dx, w.y + w.dy;
    var dx :=
      if x + Half(size) >= width as real then -w.dx
      else if x - Half(size) <= 0.0 then -w.dx
      else w.dx;
    var dy :=
      if y + Half(size) >= height as real then -w.dy
      else if y - Half(size) <= 0.0 then -w.dy
      else w.dy;
    Walk(x, y, dx, dy)
  }

  /** The walker after `n` ticks. */
  function Run(w: Walk, size: int, width: int, height: int, n: nat): Walk
    decreases n
  {
    if n == 0 then w else Run(Step(w, size, width, height), size, width, height, n - 1)
  }

  /** The speed and the axis are conserved forever: a walker that starts
      moving along one axis at speed 3 is still doing so, along the same
      axis, after any number of ticks. */
  lemma {:induction false} RunKeepsMoving(w: Walk, size: int, width: int, height: int, n: nat)
    requires Moving(w)
    ensures Moving(Run(w, size, width, height, n))
    ensures w.dx == 0.0 ==> Run(w, size, width, height, n).dx == 0.0
    ensures w.dy == 0.0 ==> Run(w, size, width, height, n).dy == 0.0
    decreases n
  {
    if n > 0 {
      RunKeepsMoving(Step(w, size, width, height), size, width, height, n - 1);
    }
  }
}
