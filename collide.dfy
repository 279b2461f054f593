/** The collision queries of game_controller.py: the prospective tank move check
    that both the player's input and the enemy AI consult before moving, the
    bullet-against-wall query, and the lookup of the player's tank. All three only
    read the world. */
module Collide {
  import opened Common
  import opened Objects
  import opened World

  /** The rectangle tank `t` would occupy after one step of (dx, dy) at its speed. */
  function Shifted(t: Tank, dx: int, dy: int): (r: Rect)
    reads t`x, t`y, t`speed
    ensures r.w == t.size && r.h == t.size
    ensures r.x - t.x == dx * t.speed && r.y - t.y == dy * t.speed
  {
    Rect(t.x + dx * t.speed, t.y + dy * t.speed, t.size, t.size)
  }

  /** Some wall of the list overlaps `r`. */
  predicate WallBlocks(r: Rect, ws: seq<Wall>) {
    exists w :: w in ws && Overlaps(r, w.Bounds())
  }

  /** Some living tank of the list other than `me` overlaps `r`. */
  predicate TankBlocks(r: Rect, me: Tank, ts: seq<Tank>)
    reads ts`x, ts`y, ts`isAlive
  {
    exists o :: o in ts && o != me && o.isAlive && Overlaps(r, o.Bounds())
  }

  /** The tank test on snapshots: some living tank other than `me` has a box that
      overlaps `r`. */
  predicate SnapBlocks(r: Rect, me: Tank, ss: seq<TankState>) {
    exists s :: s in ss && s.tank != me && s.alive && Overlaps(r, s.box)
  }

  /** Asking the tanks and asking their snapshots give the same answer. */
  lemma SnapBlocksAgree(r: Rect, me: Tank, ts: seq<Tank>)
    ensures TankBlocks(r, me, ts) <==> SnapBlocks(r, me, Snaps(ts))
  {
    SnapsAt(ts);
    if TankBlocks(r, me, ts) {
      var o :| o in ts && o != me && o.isAlive && Overlaps(r, o.Bounds());
      var k :| 0 <= k < |ts| && ts[k] == o;
      assert Snaps(ts)[k] in Snaps(ts);
    }
    if SnapBlocks(r, me, Snaps(ts)) {
      var s :| s in Snaps(ts) && s.tank != me && s.alive && Overlaps(r, s.box);
      var k :| 0 <= k < |ts| && Snaps(ts)[k] == s;
      assert ts[k] in ts;
    }
  }

  /** `check_tank_wall_collision`: the shifted rectangle meets a wall or another living tank. */
  predicate MoveBlocked(t: Tank, dx: int, dy: int, ws: seq<Wall>, ts: seq<Tank>)
    reads t`x, t`y, t`speed, ts`x, ts`y, ts`isAlive
  {
    WallBlocks(Shifted(t, dx, dy), ws) || TankBlocks(Shifted(t, dx, dy), t, ts)
  }

  /** The wall test agrees with the first-hit search of the bullet-wall pass: some wall
      overlaps exactly when that search finds one. */
  lemma WallBlocksFirstHit(r: Rect, ws: seq<Wall>)
    ensures WallBlocks(r, ws) <==> FirstWallHit(r, ws).Some?
  {
    FirstWallHitSpec(r, ws);
  }

  /** A tank never blocks its own move and dead tanks never block: adding the mover
      itself, or any number of dead tanks, to the tank list changes no answer. */
  lemma SelfAndDeadNeverBlock(t: Tank, dx: int, dy: int, ws: seq<Wall>, ts: seq<Tank>, extra: seq<Tank>)
    requires forall o :: o in extra ==> o == t || !o.isAlive
    ensures MoveBlocked(t, dx, dy, ws, ts + extra) <==> MoveBlocked(t, dx, dy, ws, ts)
  {
    var r := Shifted(t, dx, dy);
    if TankBlocks(r, t, ts + extra) {
      var o :| o in ts + extra && o != t && o.isAlive && Overlaps(r, o.Bounds());
      assert o in ts;
    }
  }

  /** `check_tank_wall_collision`: walls first, then the other living tanks. It works
      on a copy of the rectangle and changes nothing. */
  method CheckTankWallCollision(g: Game, t: Tank, dx: int, dy: int) returns (r: bool)
    ensures r <==> MoveBlocked(t, dx, dy, g.walls, g.tanks)
  {
    var box := Shifted(t, dx, dy);
    var i := 0;
    while i < |g.walls|
      invariant 0 <= i <= |g.walls|
      invariant forall k :: 0 <= k < i ==> !Overlaps(box, g.walls[k].Bounds())
    {
      if Overlaps(box, g.walls[i].Bounds()) {
        return true;
      }
      i := i + 1;
    }
    var j := 0;
    while j < |g.tanks|
      invariant 0 <= j <= |g.tanks|
      invariant forall k :: 0 <= k < j ==> !(g.tanks[k] != t && g.tanks[k].isAlive && Overlaps(box, g.tanks[k].Bounds()))
    {
      var other := g.tanks[j];
      if other != t && other.isAlive && Overlaps(box, other.Bounds()) {
        return true;
      }
      j := j + 1;
    }
    return false;
  }

  /** `check_bullet_wall_collision`: the bullet's rectangle overlaps some wall. */
  method CheckBulletWallCollision(g: Game, b: Bullet) returns (r: bool)
    ensures r <==> WallBlocks(b.Bounds(), g.walls)
  {
    var box := Rect(b.x, b.y, b.size, b.size);
    var i := 0;
    while i < |g.walls|
      invariant 0 <= i <= |g.walls|
      invariant forall k :: 0 <= k < i ==> !Overlaps(box, g.walls[k].Bounds())
    {
      if Overlaps(box, g.walls[i].Bounds()) {
        return true;
      }
      i := i + 1;
    }
    return false;
  }

  /** The first player tank in list order, alive or not. */
  function FirstPlayer(ts: seq<Tank>): (r: Option<Tank>)
    ensures r.Some? ==> r.value in ts && r.value.kind == Player
  {
    if ts == [] then None
    else if ts[0].kind == Player then Some(ts[0])
    else FirstPlayer(ts[1..])
  }

  /** `FirstPlayer` finds the player tank at the smallest index holding one, and finds
      none exactly when the list holds no player tank. */
  lemma {:induction false} FirstPlayerSpec(ts: seq<Tank>)
    ensures FirstPlayer(ts).None? <==> forall k :: 0 <= k < |ts| ==> ts[k].kind != Player
    ensures FirstPlayer(ts).Some? ==>
              exists k :: 0 <= k < |ts| && ts[k] == FirstPlayer(ts).value
                          && forall m :: 0 <= m < k ==> ts[m].kind != Player
  {
    if ts != [] && ts[0].kind != Player {
      FirstPlayerSpec(ts[1..]);
      assert forall m :: 1 <= m < |ts| ==> ts[m] == ts[1..][m - 1];
      if FirstPlayer(ts).Some? {
        var k :| 0 <= k < |ts[1..]| && ts[1..][k] == FirstPlayer(ts).value
                 && forall m :: 0 <= m < k ==> ts[1..][m].kind != Player;
        assert ts[k + 1] == FirstPlayer(ts).value;
      }
    }
    if ts != [] && ts[0].kind == Player {
      assert ts[0] == FirstPlayer(ts).value;
    }
  }

  /** `get_player_tank`: the first tank of type PLAYER, or none. */
  method GetPlayerTank(g: Game) returns (p: Option<Tank>)
    ensures p == FirstPlayer(g.tanks)
  {
    var i := 0;
    while i < |g.tanks|
      invariant 0 <= i <= |g.tanks|
      invariant FirstPlayer(g.tanks) == FirstPlayer(g.tanks[i..])
    {
      assert g.tanks[i..][1..] == g.tanks[i + 1..];
      if g.tanks[i].kind == Player {
        return Some(g.tanks[i]);
      }
      i := i + 1;
    }
    return None;
  }
}
