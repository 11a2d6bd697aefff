/** The teleporting enemy: a tick counter that, on reaching the cooldown of
    60, relocates the enemy to a random offset of at most 200 per axis from
    either the player or Home, and starts counting again. */
module Teleporting {
  import opened Geometry

  const COOLDOWN: int := 60
  const REACH: int := 200

  /** The counter after one update, and whether that update teleported. */
  datatype Tick = Tick(counter: int, teleport: bool)

  /** The counter part of TeleportingEnemy.update.  From a counter in
      [0, 59] the counter stays in [0, 59]; from a non-negative counter the
      update teleports exactly when the counter comes back to zero, which
      from [0, 59] happens exactly when it was 59; without
      a teleport the counter goes up by one. */
  function CounterStep(c: int): (t: Tick)
    ensures 0 <= c < COOLDOWN ==> 0 <= t.counter < COOLDOWN
    ensures 0 <= c ==> (t.teleport <==> t.counter == 0)
    ensures 0 <= c < COOLDOWN ==> (t.teleport <==> c == COOLDOWN - 1)
    ensures !t.teleport ==> t.counter == c + 1
  {
    var next := c + 1;
    if next >= COOLDOWN then Tick(0, true) else Tick(next, false)
  }

  /** The counter of a fresh teleporting enemy after `n` updates. */
  function CounterAfter(n: nat): int
  {
    if n == 0 then 0 else CounterStep(CounterAfter(n - 1)).counter
  }

  /** Whether the `n`-th update (counting from 1) of a fresh enemy teleports. */
  function TeleportsOn(n: nat): bool
    requires n >= 1
  {
    CounterStep(CounterAfter(n - 1)).teleport
  }

  /** How many of the first `n` updates of a fresh enemy teleport. */
  function TeleportsIn(n: nat): nat
  {
    if n == 0 then 0 else TeleportsIn(n - 1) + (if TeleportsOn(n) then 1 else 0)
  }

  /** After `n` updates the counter of a fresh enemy is n mod 60, so it
      stays in [0, 59]. */
  lemma {:induction false} CounterAfterIsRemainder(n: nat)
    ensures CounterAfter(n) == n % COOLDOWN
    ensures 0 <= CounterAfter(n) < COOLDOWN
  {
    if n > 0 {
      CounterAfterIsRemainder(n - 1);
    }
  }

  /** A fresh enemy teleports on exactly every 60th update. */
  lemma TeleportRhythm(n: nat)
    requires n >= 1
    ensures TeleportsOn(n) <==> n % COOLDOWN == 0
  {
    CounterAfterIsRemainder(n - 1);
  }

  /** In its first `n` updates a fresh enemy teleports n div 60 times. */
  lemma {:induction false} TeleportCount(n: nat)
    ensures TeleportsIn(n) == n / COOLDOWN
  {
    if n > 0 {
      TeleportCount(n - 1);
      TeleportRhythm(n);
    }
  }

  /** Whom TeleportingEnemy.teleport lands near: the outcome of its coin flip. */
  datatype Anchor = NearPlayer | NearHome

  /** The point the teleport is relative to. */
  function AnchorPoint(a: Anchor, px: real, py: real, h: Home): (real, real)
  {
    match a
    case NearPlayer => (px, py)
    case NearHome => (h.x as real, h.y as real)
  }

  /** The landing point of TeleportingEnemy.teleport for offsets drawn from
      [-200, 200]: it lies within 200 of the chosen anchor on each axis. */
  function Destination(a: Anchor, px: real, py: real, h: Home, ox: int, oy: int): (r: (real, real))
    requires -REACH <= ox <= REACH && -REACH <= oy <= REACH
    ensures Abs(r.0 - AnchorPoint(a, px, py, h).0) <= REACH as real
    ensures Abs(r.1 - AnchorPoint(a, px, py, h).1) <= REACH as real
  {
    match a
    case NearPlayer => (px + ox as real, py + oy as real)
    case NearHome => (h.x as real + ox as real, h.y as real + oy as real)
  }
}
