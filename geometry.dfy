/** Geometry shared by the game's elements: Home's goal square and the
    collision square around an enemy.  Positions are reals (the game keeps
    them as floats); Home's centre and side and an enemy's side are integers
    as in the game, halved with true division. */
module Geometry {

  /** Home: a fixed square goal region of side `size` centred at (x, y). */
  datatype Home = Home(x: int, y: int, size: int)

  function Abs(a: real): real
  {
    if a < 0.0 then -a else a
  }

  /** Half the side of a square of integer side `size`. */
  function Half(size: int): real
  {
    size as real / 2.0
  }

  /** Home.contains: the CLOSED square test, so the edge counts as inside.
      Equivalently, a point is at home exactly when it is at most half a
      side away from the centre on each axis. */
  function HomeContains(h: Home, px: real, py: real): (r: bool)
    ensures r <==> Abs(px - h.x as real) <= Half(h.size) && Abs(py - h.y as real) <= Half(h.size)
  {
    var x1, x2 := h.x as real - Half(h.size), h.x as real + Half(h.size);
    var y1, y2 := h.y as real - Half(h.size), h.y as real + Half(h.size);
    x1 <= px <= x2 && y1 <= py <= y2
  }

  /** Enemy.hits_player: the OPEN square test between an enemy centred at
      (ex, ey) with side `size` and the player's point (px, py); touching
      the edge is not a hit. */
  function Hits(ex: real, ey: real, size: int, px: real, py: real): (r: bool)
    ensures r <==> Abs(px - ex) < Half(size) && Abs(py - ey) < Half(size)
  {
    (ex - Half(size) < px < ex + Half(size)) && (ey - Half(size) < py < ey + Half(size))
  }

  /** The point lies on the border of the square of side `size` centred at (cx, cy). */
  predicate OnBorder(cx: real, cy: real, size: int, px: real, py: real)
  {
    (Abs(px - cx) == Half(size) && Abs(py - cy) <= Half(size)) ||
    (Abs(py - cy) == Half(size) && Abs(px - cx) <= Half(size))
  }

  /** Every point of Home's border, corners included, is at home. */
  lemma HomeBorderIsInside(h: Home, px: real, py: real)
    requires OnBorder(h.x as real, h.y as real, h.size, px, py)
    ensures HomeContains(h, px, py)
  {
  }

  /** No point of an enemy's border is a hit: a player at
      (ex ± size/2, ey + t) or (ex + t, ey ± size/2) is safe. */
  lemma BorderIsNoHit(ex: real, ey: real, size: int, px: real, py: real)
    requires OnBorder(ex, ey, size, px, py)
    ensures !Hits(ex, ey, size, px, py)
  {
  }

  /** Moving any distance `eps` with 0 < eps < size inward from the right
      edge along the enemy's centre line gives a hit. */
  lemma JustInsideIsHit(ex: real, ey: real, size: int, eps: real)
    requires 0.0 < eps < size as real
    ensures Hits(ex, ey, size, ex + Half(size) - eps, ey)
  {
  }

  /** The two edge policies differ by exactly the border: for one square,
      the closed test holds and the open one fails precisely on its border. */
  lemma ClosedMinusOpenIsBorder(h: Home, px: real, py: real)
    ensures (HomeContains(h, px, py) && !Hits(h.x as real, h.y as real, h.size, px, py))
            <==> OnBorder(h.x as real, h.y as real, h.size, px, py)
  {
  }
}
