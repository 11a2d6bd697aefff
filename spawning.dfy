/** Placement rules of the enemy generator.  The random integers that
    random.randint would return are a parameter: a stream `draws`, whose
    k-th element is the k-th (x, y) pair drawn. */
module Spawning {
  import opened Geometry
  import Fencing

  const FENCING_BATCH: nat := 15
  const TELEPORTING_BATCH: nat := 5
  const MAX_DISTANCE_FROM_HOME: int := 25

  /** Within 25 of Home's centre on each axis: where a fencing spawn is drawn. */
  predicate NearHome(h: Home, x: real, y: real)
  {
    Abs(x - h.x as real) <= MAX_DISTANCE_FROM_HOME as real &&
    Abs(y - h.y as real) <= MAX_DISTANCE_FROM_HOME as real
  }

  /** Some draw from index i on lands outside Home, so rejection sampling
      started at i ends. */
  ghost predicate EventuallyOutside(h: Home, draws: nat -> (int, int), i: nat)
  {
    exists k: nat :: i <= k && !HomeContains(h, draws(k).0 as real, draws(k).1 as real)
  }

  /** The placement of one fencing enemy in EnemyGenerator.create_fencing_enemy.
      (x0, y0) is the enemy's position before placement.  When neither
      coordinate equals Home's, a first pair is drawn; then pairs are drawn
      while the enemy is at home.  The result is never at home.  Draws
      start, start + 1, ..., next - 1 are used: every one but the last
      fell inside Home, and the result is the last one, so within 25 of
      Home.  Nothing is drawn exactly when the initial position shares a
      coordinate with Home's centre and is not at home; then the enemy
      keeps (x0, y0).  The ghost `bound` names a draw, from `start` on, that
      falls outside Home; it only bounds the loop. */
  method PlaceFencing(h: Home, x0: real, y0: real, draws: nat -> (int, int), start: nat, ghost bound: nat)
    returns (x: real, y: real, next: nat)
    requires forall k: nat :: NearHome(h, draws(k).0 as real, draws(k).1 as real)
    requires start <= bound && !HomeContains(h, draws(bound).0 as real, draws(bound).1 as real)
    ensures !HomeContains(h, x, y)
    ensures start <= next
    ensures next == start ==> x == x0 && y == y0
    ensures next > start ==> NearHome(h, x, y)
    ensures next > start ==> x == draws(next - 1).0 as real && y == draws(next - 1).1 as real
    ensures forall j: nat :: start <= j < next - 1 ==>
              HomeContains(h, draws(j).0 as real, draws(j).1 as real)
    ensures (x0 != h.x as real && y0 != h.y as real) ==> next > start
    ensures HomeContains(h, x0, y0) ==> next > start
    ensures (!(x0 != h.x as real && y0 != h.y as real) && !HomeContains(h, x0, y0)) ==> next == start
  {
    x, y, next := x0, y0, start;
    if x0 != h.x as real && y0 != h.y as real {
      x, y := draws(next).0 as real, draws(next).1 as real;
      next := next + 1;
    }
    while HomeContains(h, x, y)
      invariant start <= next <= bound + 1
      invariant next == bound + 1 ==> !HomeContains(h, x, y)
      invariant next == start ==> x == x0 && y == y0
      invariant next > start ==> NearHome(h, x, y)
      invariant next > start ==> x == draws(next - 1).0 as real && y == draws(next - 1).1 as real
      invariant forall j: nat :: start <= j < next - 1 ==>
                  HomeContains(h, draws(j).0 as real, draws(j).1 as real)
      invariant (x0 != h.x as real && y0 != h.y as real) ==> next > start
      invariant (!(x0 != h.x as real && y0 != h.y as real) && !HomeContains(h, x0, y0)) ==> next == start
      decreases bound + 1 - next
    {
      x, y := draws(next).0 as real, draws(next).1 as real;
      next := next + 1;
    }
  }

  /** A fencing spawn drawn within 25 of Home lies inside the patrol square
      of side 80 around Home, so the patrol keeps it there for good. */
  lemma NearHomeInSquare(h: Home, x: real, y: real)
    requires NearHome(h, x, y)
    ensures Fencing.InSquare(h, x, y)
  {
  }
}
