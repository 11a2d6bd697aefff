/** The game session and its mutable elements: the waypoint, the player, the
    enemy variants, the session (TurtleAdventureGame) and the enemy
    generator's spawn bodies.  Each element that refers back to the session
    receives it as the parameter `game`.  The fencing and random-walk
    updates are proved equal to the pure step functions in Fencing and
    RandomWalk, and the teleporting update is stated through the counter
    and destination functions in Teleporting; the lasting properties are
    proved there.  The demo and player updates state their new position
    directly. */
module Adventure {
  import opened Geometry
  import Fencing
  import RandomWalk
  import Teleporting
  import Spawning

  /** The session's state: game_over_win and game_over_lose end it. */
  datatype Status = Running | Won | Lost

  /** The session's state after a game-over call with `outcome`: a running
      game ends with that outcome, and an ended game stays as it ended. */
  function Finish(s: Status, outcome: Status): (r: Status)
    requires outcome != Running
    ensures r != Running
    ensures s == Running ==> r == outcome
    ensures s != Running ==> r == s
  {
    if s == Running then outcome else s
  }

  /** The point the player walks to: an activatable target location. */
  class Waypoint {
    var x: real
    var y: real
    var active: bool

    /** A new waypoint is inactive; (x0, y0) is its initial position. */
    constructor (x0: real, y0: real)
      ensures x == x0 && y == y0 && !active
    {
      x, y, active := x0, y0, false;
    }

    /** Waypoint.is_active: whether the waypoint is active. */
    function IsActive(): (r: bool)
      reads this
      ensures r <==> active
    {
      active
    }

    /** Marks the waypoint active at (x', y'). */
    method Activate(x': real, y': real)
      modifies this
      ensures IsActive() && x == x' && y == y'
    {
      active := true;
      x := x';
      y := y';
    }

    /** Marks the waypoint inactive; its position is kept. */
    method Deactivate()
      modifies this`active
      ensures !IsActive()
      ensures x == old(x) && y == old(y)
    {
      active := false;
    }
  }

  /** The player's token. */
  class Player {
    var x: real
    var y: real
    const speed: real

    /** A player of the given speed at (x0, y0). */
    constructor (x0: real, y0: real, speed: real)
      ensures x == x0 && y == y0 && this.speed == speed
    {
      x, y, this.speed := x0, y0, speed;
    }

    /** Player.update.  A running game becomes Won when the player is at
      home at the start of the tick (an ended game keeps its outcome), and
      the tick goes on.  Then, if the waypoint is
      active, the player turns toward it and walks `speed`, landing at
      (nx, ny), and the waypoint is cleared when the distance left,
      `remaining`, is below `speed`.  (nx, ny) and `remaining` are what the
      turtle library's heading, forward and distance computations give. */
    method Update(game: Game, nx: real, ny: real, remaining: real)
      modifies this, game`status, game.waypoint`active
      ensures game.status ==
                if HomeContains(game.home, old(x), old(y)) then Finish(old(game.status), Won)
                else old(game.status)
      ensures old(game.waypoint.active) ==>
                x == nx && y == ny && game.waypoint.active == !(remaining < speed)
      ensures !old(game.waypoint.active) ==> x == old(x) && y == old(y) && !game.waypoint.active
    {
      if HomeContains(game.home, x, y) {
        game.GameOverWin();
      }
      var waypoint := game.waypoint;
      if waypoint.IsActive() {
        x, y := nx, ny;
        if remaining < speed {
          waypoint.Deactivate();
        }
      }
    }
  }

  /** The demo enemy: one step down and right per tick. */
  class DemoEnemy {
    var x: real
    var y: real
    const size: int

    /** A demo enemy of side `size` at (x0, y0). */
    constructor (x0: real, y0: real, size: int)
      ensures x == x0 && y == y0 && this.size == size
    {
      x, y, this.size := x0, y0, size;
    }

    /** DemoEnemy.update: moves by exactly (+1, +1), then a running game
        becomes Lost exactly when the enemy's new square strictly contains
        the player; an ended game keeps its outcome. */
    method Update(game: Game)
      modifies this`x, this`y, game`status
      ensures x == old(x) + 1.0 && y == old(y) + 1.0
      ensures game.status ==
                if Hits(x, y, size, game.player.x, game.player.y) then Finish(old(game.status), Lost)
                else old(game.status)
    {
      x := x + 1.0;
      y := y + 1.0;
      if Hits(x, y, size, game.player.x, game.player.y) {
        game.GameOverLose();
      }
    }
  }

  /** The random-walk enemy. */
  class RandomWalkEnemy {
    var x: real
    var y: real
    const size: int
    var dx: real
    var dy: real

    /** A new walker stands still until it chooses a direction. */
    constructor (x0: real, y0: real, size: int)
      ensures x == x0 && y == y0 && this.size == size && dx == 0.0 && dy == 0.0
    {
      x, y, this.size := x0, y0, size;
      dx, dy := 0.0, 0.0;
    }

    function State(): RandomWalk.Walk
      reads this
    {
      RandomWalk.Walk(x, y, dx, dy)
    }

    /** RandomWalkEnemy.__choose_random_direction, with the random choice
        as the parameter `heading`: the walker then moves along one axis at
        speed 3. */
    method ChooseRandomDirection(heading: RandomWalk.Heading)
      modifies this`dx, this`dy
      ensures (dx, dy) == RandomWalk.Velocity(heading)
      ensures RandomWalk.Moving(State())
    {
      if heading == RandomWalk.Up {
        dx, dy := 0.0, RandomWalk.SPEED;
      } else if heading == RandomWalk.Down {
        dx, dy := 0.0, -RandomWalk.SPEED;
      } else if heading == RandomWalk.Left {
        dx, dy := -RandomWalk.SPEED, 0.0;
      } else {
        dx, dy := RandomWalk.SPEED, 0.0;
      }
    }

    /** RandomWalkEnemy.update: moves and bounces as RandomWalk.Step says
        (so a walker moving at speed 3 along one axis keeps doing so), then
        a running game becomes Lost exactly when the new square strictly
        contains the player; an ended game keeps its outcome. */
    method Update(game: Game)
      modifies this`x, this`y, this`dx, this`dy, game`status
      ensures State() == RandomWalk.Step(old(State()), size, game.screenWidth, game.screenHeight)
      ensures RandomWalk.Moving(old(State())) ==> RandomWalk.Moving(State())
      ensures game.status ==
                if Hits(x, y, size, game.player.x, game.player.y) then Finish(old(game.status), Lost)
                else old(game.status)
    {
      x := x + dx;
      y := y + dy;

      if x + Half(size) >= game.screenWidth as real {
        dx := -dx;
      } else if x - Half(size) <= 0.0 {
        dx := -dx;
      }

      if y + Half(size) >= game.screenHeight as real {
        dy := -dy;
      } else if y - Half(size) <= 0.0 {
        dy := -dy;
      }

      if Hits(x, y, size, game.player.x, game.player.y) {
        game.GameOverLose();
      }
    }
  }

  /** The fencing enemy. */
  class FencingEnemy {
    var x: real
    var y: real
    const size: int
    var direction: Fencing.Direction

    /** A new fencing enemy heads right. */
    constructor (x0: real, y0: real, size: int)
      ensures x == x0 && y == y0 && this.size == size && direction == Fencing.Right
    {
      x, y, this.size := x0, y0, size;
      direction := Fencing.Right;
    }

    function State(): Fencing.Patrol
      reads this
    {
      Fencing.Patrol(x, y, direction)
    }

    /** FencingEnemy.update: patrols as Fencing.Step says (so an enemy
        inside the square around Home stays inside), then a running game
        becomes Lost exactly when the new square strictly contains the
        player; an ended game keeps its outcome. */
    method Update(game: Game)
      modifies this`x, this`y, this`direction, game`status
      ensures State() == Fencing.Step(game.home, old(State()))
      ensures Fencing.InSquare(game.home, old(x), old(y)) ==> Fencing.InSquare(game.home, x, y)
      ensures game.status ==
                if Hits(x, y, size, game.player.x, game.player.y) then Finish(old(game.status), Lost)
                else old(game.status)
    {
      var home := game.home;
      var squareLeft := home.x as real - Fencing.SQUARE_SIZE / 2.0;
      var squareRight := home.x as real + Fencing.SQUARE_SIZE / 2.0;
      var squareTop := home.y as real - Fencing.SQUARE_SIZE / 2.0;
      var squareBottom := home.y as real + Fencing.SQUARE_SIZE / 2.0;

      match direction {
        case Right =>
          x := x + Fencing.SPEED;
          if x >= squareRight {
            x := squareRight;
            direction := Fencing.Down;
          }
        case Down =>
          y := y + Fencing.SPEED;
          if y >= squareBottom {
            y := squareBottom;
            direction := Fencing.Left;
          }
        case Left =>
          x := x - Fencing.SPEED;
          if x <= squareLeft {
            x := squareLeft;
            direction := Fencing.Up;
          }
        case Up =>
          y := y - Fencing.SPEED;
          if y <= squareTop {
            y := squareTop;
            direction := Fencing.Right;
          }
      }

      if Hits(x, y, size, game.player.x, game.player.y) {
        game.GameOverLose();
      }
    }
  }

  /** The teleporting enemy. */
  class TeleportingEnemy {
    var x: real
    var y: real
    const size: int
    var counter: int

    /** A new teleporting enemy's counter is zero. */
    constructor (x0: real, y0: real, size: int)
      ensures x == x0 && y == y0 && this.size == size && counter == 0
    {
      x, y, this.size := x0, y0, size;
      counter := 0;
    }

    /** TeleportingEnemy.teleport, with the coin flip as `anchor` and the
        two random offsets from [-200, 200] as `ox`, `oy`. */
    method Teleport(game: Game, anchor: Teleporting.Anchor, ox: int, oy: int)
      requires -Teleporting.REACH <= ox <= Teleporting.REACH
      requires -Teleporting.REACH <= oy <= Teleporting.REACH
      modifies this`x, this`y
      ensures (x, y) == Teleporting.Destination(anchor, game.player.x, game.player.y, game.home, ox, oy)
    {
      if anchor == Teleporting.NearPlayer {
        x := game.player.x + ox as real;
        y := game.player.y + oy as real;
      } else {
        x := game.home.x as real + ox as real;
        y := game.home.y as real + oy as real;
      }
    }

    /** TeleportingEnemy.update: the counter advances as
        Teleporting.CounterStep says (so it stays in [0, 59]) and the enemy
        teleports exactly when the counter wraps; then a running game becomes
        Lost exactly when the enemy's square strictly contains the player;
        an ended game keeps its outcome. */
    method Update(game: Game, anchor: Teleporting.Anchor, ox: int, oy: int)
      requires -Teleporting.REACH <= ox <= Teleporting.REACH
      requires -Teleporting.REACH <= oy <= Teleporting.REACH
      modifies this`x, this`y, this`counter, game`status
      ensures counter == Teleporting.CounterStep(old(counter)).counter
      ensures 0 <= old(counter) < Teleporting.COOLDOWN ==> 0 <= counter < Teleporting.COOLDOWN
      ensures Teleporting.CounterStep(old(counter)).teleport ==>
                (x, y) == Teleporting.Destination(anchor, game.player.x, game.player.y, game.home, ox, oy)
      ensures !Teleporting.CounterStep(old(counter)).teleport ==> x == old(x) && y == old(y)
      ensures game.status ==
                if Hits(x, y, size, game.player.x, game.player.y) then Finish(old(game.status), Lost)
                else old(game.status)
    {
      counter := counter + 1;
      if counter >= Teleporting.COOLDOWN {
        Teleport(game, anchor, ox, oy);
        counter := 0;
      }

      if Hits(x, y, size, game.player.x, game.player.y) {
        game.GameOverLose();
      }
    }
  }

  /** An element of the session's enemy list, tagged by variant. */
  datatype Enemy =
    | Demo(demo: DemoEnemy)
    | Walker(walker: RandomWalkEnemy)
    | Fencer(fencer: FencingEnemy)
    | Teleporter(teleporter: TeleportingEnemy)

  /** TurtleAdventureGame: the session that owns every element. */
  class Game {
    const level: int
    const screenWidth: int
    const screenHeight: int
    const waypoint: Waypoint
    const home: Home
    const player: Player
    var enemies: seq<Enemy>
    var status: Status

    /** The session after init_game: Home of side 20 at
        (screenWidth - 100, screenHeight div 2), the player of speed 5 at
        (50, screenHeight div 2), an inactive waypoint at (wx, wy), no
        enemies, running. */
    constructor (screenWidth: int, screenHeight: int, level: int, wx: real, wy: real)
      ensures this.screenWidth == screenWidth && this.screenHeight == screenHeight && this.level == level
      ensures home == Home(screenWidth - 100, screenHeight / 2, 20)
      ensures fresh(player) && player.x == 50.0 && player.y == (screenHeight / 2) as real && player.speed == 5.0
      ensures fresh(waypoint) && !waypoint.active && waypoint.x == wx && waypoint.y == wy
      ensures enemies == [] && status == Running
    {
      this.level := level;
      this.screenWidth := screenWidth;
      this.screenHeight := screenHeight;
      enemies := [];
      status := Running;
      waypoint := new Waypoint(wx, wy);
      home := Home(screenWidth - 100, screenHeight / 2, 20);
      player := new Player(50.0, (screenHeight / 2) as real, 5.0);
    }

    /** TurtleAdventureGame.add_enemy: appends, keeping the earlier enemies
        and their order. */
    method AddEnemy(enemy: Enemy)
      modifies this`enemies
      ensures enemies == old(enemies) + [enemy]
    {
      enemies := enemies + [enemy];
    }

    /** TurtleAdventureGame.game_over_win. */
    method GameOverWin()
      modifies this`status
      ensures status == Finish(old(status), Won)
    {
      status := Finish(status, Won);
    }

    /** TurtleAdventureGame.game_over_lose. */
    method GameOverLose()
      modifies this`status
      ensures status == Finish(old(status), Lost)
    {
      status := Finish(status, Lost);
    }
  }

  /** A fencing enemy at position j of `enemies`, freshly placed outside
      Home, heading right, of side 20.  It was sampled, and so lies within
      25 of Home, when its initial position (x0, y0) shares no coordinate
      with Home's centre or is at home; otherwise it keeps (x0, y0). */
  ghost predicate PlacedFencer(enemies: seq<Enemy>, j: int, h: Home, x0: real, y0: real)
    reads set k | 0 <= k < |enemies| && enemies[k].Fencer? :: enemies[k].fencer
  {
    0 <= j < |enemies| && enemies[j].Fencer? &&
    var f := enemies[j].fencer;
    var sampled := (x0 != h.x as real && y0 != h.y as real) || HomeContains(h, x0, y0);
    !HomeContains(h, f.x, f.y) && f.direction == Fencing.Right && f.size == 20 &&
    (sampled ==> Spawning.NearHome(h, f.x, f.y)) &&
    (!sampled ==> f.x == x0 && f.y == y0)
  }

  /** The spawn bodies of EnemyGenerator; its timers are not modelled. */
  class EnemyGenerator {
    const game: Game
    const level: int

    constructor (game: Game, level: int)
      ensures this.game == game && this.level == level
    {
      this.game := game;
      this.level := level;
    }

    /** The body of EnemyGenerator.create_fencing_enemy: appends exactly 15
        new fencing enemies, 15 different objects, none of them at home.  (x0, y0) is the position
        a new enemy has before placement; `draws` are the random pairs. */
    method CreateFencingEnemies(x0: real, y0: real, draws: nat -> (int, int))
      requires forall k: nat :: Spawning.NearHome(game.home, draws(k).0 as real, draws(k).1 as real)
      requires forall i: nat :: Spawning.EventuallyOutside(game.home, draws, i)
      modifies game`enemies
      ensures |game.enemies| == |old(game.enemies)| + Spawning.FENCING_BATCH
      ensures game.enemies[..|old(game.enemies)|] == old(game.enemies)
      ensures forall j :: |old(game.enemies)| <= j < |game.enemies| ==>
                PlacedFencer(game.enemies, j, game.home, x0, y0) && fresh(game.enemies[j].fencer)
      ensures forall a, b :: |old(game.enemies)| <= a < b < |game.enemies| ==> game.enemies[a] != game.enemies[b]
    {
      var n := |game.enemies|;
      var next: nat := 0;
      for i := 0 to Spawning.FENCING_BATCH
        invariant |game.enemies| == n + i
        invariant game.enemies[..n] == old(game.enemies)
        invariant forall j :: n <= j < |game.enemies| ==>
                    PlacedFencer(game.enemies, j, game.home, x0, y0) && fresh(game.enemies[j].fencer)
        invariant forall a, b :: n <= a < b < |game.enemies| ==> game.enemies[a] != game.enemies[b]
      {
        var fencingEnemy := new FencingEnemy(x0, y0, 20);
        assert forall j :: n <= j < |game.enemies| ==> game.enemies[j] != Fencer(fencingEnemy);
        assert Spawning.EventuallyOutside(game.home, draws, next);
        ghost var bound: nat :| next <= bound && !HomeContains(game.home, draws(bound).0 as real, draws(bound).1 as real);
        var x, y, used := Spawning.PlaceFencing(game.home, x0, y0, draws, next, bound);
        fencingEnemy.x, fencingEnemy.y := x, y;
        game.AddEnemy(Fencer(fencingEnemy));
        next := used;
      }
    }

    /** The body of EnemyGenerator.create_teleporting_enemy: appends exactly
        5 new teleporting enemies, 5 different objects.  When the initial position (x0, y0) has
        no coordinate equal to 100, the j-th is placed at the j-th random
        pair of `draws`, drawn from [0, screenWidth] x [0, screenHeight];
        otherwise it stays at (x0, y0). */
    method CreateTeleportingEnemies(x0: real, y0: real, draws: seq<(int, int)>)
      requires |draws| == Spawning.TELEPORTING_BATCH
      requires forall k :: 0 <= k < |draws| ==>
                 0 <= draws[k].0 <= game.screenWidth && 0 <= draws[k].1 <= game.screenHeight
      modifies game`enemies
      ensures |game.enemies| == |old(game.enemies)| + Spawning.TELEPORTING_BATCH
      ensures game.enemies[..|old(game.enemies)|] == old(game.enemies)
      ensures forall j :: |old(game.enemies)| <= j < |game.enemies| ==>
                game.enemies[j].Teleporter? && fresh(game.enemies[j].teleporter) &&
                game.enemies[j].teleporter.counter == 0 && game.enemies[j].teleporter.size == 20 &&
                (game.enemies[j].teleporter.x, game.enemies[j].teleporter.y) ==
                  if x0 != 100.0 && y0 != 100.0
                  then (draws[j - |old(game.enemies)|].0 as real, draws[j - |old(game.enemies)|].1 as real)
                  else (x0, y0)
      ensures forall a, b :: |old(game.enemies)| <= a < b < |game.enemies| ==> game.enemies[a] != game.enemies[b]
    {
      var n := |game.enemies|;
      for i := 0 to Spawning.TELEPORTING_BATCH
        invariant |game.enemies| == n + i
        invariant game.enemies[..n] == old(game.enemies)
        invariant forall j :: n <= j < |game.enemies| ==>
                    game.enemies[j].Teleporter? && fresh(game.enemies[j].teleporter) &&
                    game.enemies[j].teleporter.counter == 0 && game.enemies[j].teleporter.size == 20 &&
                    (game.enemies[j].teleporter.x, game.enemies[j].teleporter.y) ==
                      if x0 != 100.0 && y0 != 100.0
                      then (draws[j - n].0 as real, draws[j - n].1 as real)
                      else (x0, y0)
        invariant forall a, b :: n <= a < b < |game.enemies| ==> game.enemies[a] != game.enemies[b]
      {
        var teleportingEnemy := new TeleportingEnemy(x0, y0, 20);
        assert forall j :: n <= j < |game.enemies| ==> game.enemies[j] != Teleporter(teleportingEnemy);
        if teleportingEnemy.x != 100.0 && teleportingEnemy.y != 100.0 {
          teleportingEnemy.x := draws[i].0 as real;
          teleportingEnemy.y := draws[i].1 as real;
        }
        game.AddEnemy(Teleporter(teleportingEnemy));
      }
    }
  }
}
