/** The entity model of game_objects.py: tanks and bullets are objects whose fields
    change in place; walls and the base are never changed after they are built and
    are plain values. Every `rect` of the source is derived from x, y and size. */
module Objects {
  import opened Common

  const ScreenWidth := 800
  const ScreenHeight := 600
  const TankSize := 40
  const BulletSize := 8
  const WallSize := 40
  /** Gap between the tank's front edge and a newly fired bullet. */
  const MuzzleGap := 5
  const BulletSpeed := 5

  datatype Direction = Up | Right | Down | Left
  datatype TankType = Player | EnemyNormal | EnemyCommander
  /** BaseType is a member of the enum that no wall ever carries. */
  datatype WallType = Soil | Metal | BaseType

  /** A bullet whose top-left corner is at (x, y) has left [0, ScreenWidth] x [0, ScreenHeight]. */
  predicate OffScreenAt(x: int, y: int) {
    x < 0 || x > ScreenWidth || y < 0 || y > ScreenHeight
  }

  /** Horizontal and vertical unit displacement of a direction. */
  function DirX(d: Direction): int {
    match d
    case Left => -1
    case Right => 1
    case _ => 0
  }

  function DirY(d: Direction): int {
    match d
    case Up => -1
    case Down => 1
    case _ => 0
  }

  /** An axis-aligned rectangle. */
  datatype Rect = Rect(x: int, y: int, w: int, h: int)

  /** `colliderect`: the interiors intersect; rectangles that only share an edge do not collide. */
  predicate Overlaps(a: Rect, b: Rect) {
    a.x < b.x + b.w && b.x < a.x + a.w && a.y < b.y + b.h && b.y < a.y + a.h
  }

  lemma OverlapsSymmetric(a: Rect, b: Rect)
    ensures Overlaps(a, b) <==> Overlaps(b, a)
  {
  }

  datatype Wall = Wall(x: int, y: int, kind: WallType) {
    function Bounds(): Rect { Rect(x, y, WallSize, WallSize) }
  }

  datatype Base = Base(x: int, y: int) {
    function Bounds(): Rect { Rect(x, y, WallSize, WallSize) }
  }

  /** One axis of `Tank.move`: the new coordinate is taken only when it lies in
      [0, limit]; otherwise the axis keeps its old value (it is not clamped). */
  function AxisStep(c: int, delta: int, limit: int): (r: int)
    ensures r == c + delta || r == c
    ensures r == c + delta <==> 0 <= c + delta <= limit || delta == 0
    ensures 0 <= c <= limit ==> 0 <= r <= limit
  {
    if 0 <= c + delta <= limit then c + delta else c
  }

  /** Top-left corner of the bullet fired by a tank at (x, y) of the given size:
      centred on the perpendicular axis, and outside the front edge on the forward axis. */
  function Muzzle(x: int, y: int, size: int, d: Direction): (int, int) {
    var cx := x + size / 2 - BulletSize / 2;
    var cy := y + size / 2 - BulletSize / 2;
    match d
    case Up => (cx, y - BulletSize - MuzzleGap)
    case Down => (cx, y + size + MuzzleGap)
    case Left => (x - BulletSize - MuzzleGap, cy)
    case Right => (x + size + MuzzleGap, cy)
  }

  /** A fired bullet starts clear of its own tank, MuzzleGap units ahead of the front
      edge, and its centre lies on the tank's centre line along the firing direction. */
  lemma MuzzleClearOfShooter(x: int, y: int, d: Direction)
    ensures var m := Muzzle(x, y, TankSize, d); var bx := m.0; var bY := m.1;
      && !Overlaps(Rect(bx, bY, BulletSize, BulletSize), Rect(x, y, TankSize, TankSize))
      && (d == Up ==> bY + BulletSize + MuzzleGap == y && bx + BulletSize / 2 == x + TankSize / 2)
      && (d == Down ==> bY == y + TankSize + MuzzleGap && bx + BulletSize / 2 == x + TankSize / 2)
      && (d == Left ==> bx + BulletSize + MuzzleGap == x && bY + BulletSize / 2 == y + TankSize / 2)
      && (d == Right ==> bx == x + TankSize + MuzzleGap && bY + BulletSize / 2 == y + TankSize / 2)
  {
  }

  /** `shoot`'s cooldown gate. */
  predicate CanShoot(now: int, lastShot: int, cooldown: int) {
    now - lastShot >= cooldown
  }

  /** Once a shot at `now` is taken, another at the same `now` is refused whenever the
      cooldown is positive, and taken again once `cooldown` has elapsed. */
  lemma CooldownAfterShot(now: int, cooldown: int, later: int)
    ensures cooldown > 0 ==> !CanShoot(now, now, cooldown)
    ensures later >= now + cooldown ==> CanShoot(later, now, cooldown)
  {
  }

  /** Hit points and alive flag after one `hit`. */
  function HitOutcome(hp: int, alive: bool): (r: (int, bool))
    ensures r.0 == hp - 1
    ensures r.1 ==> alive
    ensures (alive <==> hp > 0) ==> (r.1 <==> r.0 > 0)
  {
    (hp - 1, if hp - 1 <= 0 then false else alive)
  }

  /** A commander (2 hit points) survives its first hit and dies at the second; any
      other tank (1 hit point) dies at its first. */
  lemma HitsToKill()
    ensures HitOutcome(2, true) == (1, true)
    ensures HitOutcome(HitOutcome(2, true).0, HitOutcome(2, true).1) == (0, false)
    ensures HitOutcome(1, true) == (0, false)
  {
  }

  function InitialHitPoints(kind: TankType): int {
    if kind == EnemyCommander then 2 else 1
  }

  class Tank {
    var x: int
    var y: int
    const kind: TankType
    var direction: Direction
    var speed: int
    const size: int := TankSize
    var lastShotTime: int
    var shotCooldown: int
    var visionRange: int
    var isAlive: bool
    var hitPoints: int
    /** The random-wander gate of `update_ai` (kept on every tank; only enemies use it). */
    var aiTimer: int
    var aiDecisionInterval: int

    constructor (x0: int, y0: int, kind0: TankType, dir0: Direction)
      ensures x == x0 && y == y0 && kind == kind0 && direction == dir0
      ensures speed == 2 && lastShotTime == 0 && shotCooldown == 500 && visionRange == 150
      ensures isAlive && hitPoints == InitialHitPoints(kind0)
      ensures aiTimer == 0 && aiDecisionInterval == 1000
      ensures Healthy()
    {
      x, y, kind, direction := x0, y0, kind0, dir0;
      speed, lastShotTime, shotCooldown, visionRange := 2, 0, 500, 150;
      isAlive := true;
      hitPoints := InitialHitPoints(kind0);
      aiTimer, aiDecisionInterval := 0, 1000;
    }

    function Bounds(): Rect
      reads this`x, this`y
    {
      Rect(x, y, size, size)
    }

    /** The health invariant: a tank is alive exactly while it has hit points left. */
    predicate Healthy()
      reads this`isAlive, this`hitPoints
    {
      isAlive <==> hitPoints > 0
    }

    predicate InBounds()
      reads this`x, this`y
    {
      0 <= x <= ScreenWidth - size && 0 <= y <= ScreenHeight - size
    }

    /** Each axis moves by its delta times the speed, independently, and only if the
        new coordinate keeps the tank on screen. */
    method Move(dx: int, dy: int)
      modifies this`x, this`y
      ensures x == AxisStep(old(x), dx * speed, ScreenWidth - size)
      ensures y == AxisStep(old(y), dy * speed, ScreenHeight - size)
      ensures old(InBounds()) ==> InBounds()
    {
      var newX := x + dx * speed;
      var newY := y + dy * speed;
      if 0 <= newX <= ScreenWidth - size {
        x := newX;
      }
      if 0 <= newY <= ScreenHeight - size {
        y := newY;
      }
    }

    method Rotate(d: Direction)
      modifies this`direction
      ensures direction == d
    {
      direction := d;
    }

    /** Fires unless the cooldown has not elapsed since the last shot; a shot records
        `now` and yields a new bullet at the muzzle, flying the tank's way, owned by it. */
    method Shoot(now: int) returns (b: Option<Bullet>)
      modifies this`lastShotTime
      ensures b.Some? <==> CanShoot(now, old(lastShotTime), shotCooldown)
      ensures b.None? ==> lastShotTime == old(lastShotTime)
      ensures b.Some? ==> && lastShotTime == now
                          && fresh(b.value)
                          && (b.value.x, b.value.y) == Muzzle(x, y, size, direction)
                          && b.value.direction == direction
                          && b.value.owner == this
    {
      if now - lastShotTime < shotCooldown {
        return None;
      }
      lastShotTime := now;
      var m := Muzzle(x, y, size, direction);
      var bullet := new Bullet(m.0, m.1, direction, this);
      b := Some(bullet);
    }

    /** One hit point less; the tank dies when none are left and is never revived. */
    method Hit()
      modifies this`hitPoints, this`isAlive
      ensures (hitPoints, isAlive) == HitOutcome(old(hitPoints), old(isAlive))
      ensures old(Healthy()) ==> Healthy()
    {
      hitPoints := hitPoints - 1;
      if hitPoints <= 0 {
        isAlive := false;
      }
    }

    /** What `Tank.update_ai` leaves, from the timer, facing, position and
        last shot it started from: before the decision interval nothing changes; after
        it the timer restarts, the tank turns if drawn, takes one unchecked forward step
        and restarts its cooldown iff a drawn shot was allowed. */
    ghost predicate Wandered(now: int, turn: Option<Direction>, fire: bool,
                             timer0: int, dir0: Direction, x0: int, y0: int, shot0: int)
      reads this
    {
      && (now - timer0 < aiDecisionInterval ==>
            aiTimer == timer0 && direction == dir0 && x == x0 && y == y0 && lastShotTime == shot0)
      && (now - timer0 >= aiDecisionInterval ==>
            && aiTimer == now
            && direction == (if turn.Some? then turn.value else dir0)
            && x == AxisStep(x0, DirX(direction) * speed, ScreenWidth - size)
            && y == AxisStep(y0, DirY(direction) * speed, ScreenHeight - size)
            && lastShotTime == (if fire && CanShoot(now, shot0, shotCooldown) then now else shot0))
    }

    /** The random wander of `update_ai`: at most once per decision interval, optionally
        turn (`turn` is the random choice), take one unit step forward without any
        collision check, and try to fire (`fire` is the 20% draw; the bullet is dropped
        by the caller but the shot still restarts the cooldown). */
    method WanderAi(now: int, turn: Option<Direction>, fire: bool)
      modifies this`aiTimer, this`direction, this`x, this`y, this`lastShotTime
      ensures Wandered(now, turn, fire, old(aiTimer), old(direction), old(x), old(y), old(lastShotTime))
      ensures old(InBounds()) ==> InBounds()
    {
      if now - aiTimer < aiDecisionInterval {
        return;
      }
      aiTimer := now;
      if turn.Some? {
        direction := turn.value;
      }
      Move(DirX(direction), DirY(direction));
      if fire {
        var _ := Shoot(now);
      }
    }

    /** `Tank.update`: a dead tank does nothing; an enemy runs its random wander. */
    method Update(now: int, turn: Option<Direction>, fire: bool)
      modifies this`aiTimer, this`direction, this`x, this`y, this`lastShotTime
      ensures !old(isAlive) || kind == Player ==> unchanged(this)
      ensures old(isAlive) && kind != Player ==>
                Wandered(now, turn, fire, old(aiTimer), old(direction), old(x), old(y), old(lastShotTime))
      ensures old(InBounds()) ==> InBounds()
    {
      if !isAlive {
        return;
      }
      if kind != Player {
        WanderAi(now, turn, fire);
      }
    }
  }

  class Bullet {
    var x: int
    var y: int
    const direction: Direction
    const owner: Tank
    const speed: int := BulletSpeed
    const size: int := BulletSize

    constructor (x0: int, y0: int, d: Direction, owner0: Tank)
      ensures x == x0 && y == y0 && direction == d && owner == owner0
    {
      x, y, direction, owner := x0, y0, d, owner0;
    }

    function Bounds(): Rect
      reads this`x, this`y
    {
      Rect(x, y, size, size)
    }

    /** Exactly `speed` units along the bullet's direction; the other coordinate stays. */
    method Update()
      modifies this`x, this`y
      ensures x == old(x) + speed * DirX(direction)
      ensures y == old(y) + speed * DirY(direction)
    {
      match direction
      case Up => y := y - speed;
      case Down => y := y + speed;
      case Left => x := x - speed;
      case Right => x := x + speed;
    }

    predicate IsOffScreen()
      reads this`x, this`y
    {
      OffScreenAt(x, y)
    }
  }

  /** A bullet on screen that one `update` takes off screen has crossed the edge it
      travels toward, and only that edge. */
  lemma LeavesAhead(x: int, y: int, d: Direction)
    requires !OffScreenAt(x, y)
    ensures OffScreenAt(x + BulletSpeed * DirX(d), y + BulletSpeed * DirY(d)) <==>
              match d
              case Up => y < BulletSpeed
              case Down => y > ScreenHeight - BulletSpeed
              case Left => x < BulletSpeed
              case Right => x > ScreenWidth - BulletSpeed
  {
  }
}
