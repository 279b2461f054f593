/** One frame of the game loop of main.py (`Game.update`): the controller's update,
    then, while the game runs, every tank's own update, the bullet sweep, the three
    collision passes and the terminal check. */
module Tick {
  import opened Common
  import opened Objects
  import opened World
  import opened Ai
  import opened Controller

  /** The random draws of one tank's `update`: the new facing, if it turns, and
      whether it tries to fire. */
  datatype Wander = Wander(turn: Option<Direction>, fire: bool)

  /** `for tank in self.tanks: tank.update()`: each tank in list order with its own
      draws. Player and dead tanks stay as they are, and every tank that was on screen
      still is. */
  method UpdateTanks(g: Game, now: int, wander: seq<Wander>)
    requires |wander| == |g.tanks|
    modifies g.tanks`aiTimer, g.tanks`direction, g.tanks`x, g.tanks`y, g.tanks`lastShotTime
    ensures forall k :: 0 <= k < |g.tanks| && old(g.tanks[k].InBounds()) ==> g.tanks[k].InBounds()
    ensures forall k :: 0 <= k < |g.tanks| && (g.tanks[k].kind == Player || !g.tanks[k].isAlive) ==>
              && g.tanks[k].x == old(g.tanks[k].x) && g.tanks[k].y == old(g.tanks[k].y)
              && g.tanks[k].direction == old(g.tanks[k].direction)
              && g.tanks[k].lastShotTime == old(g.tanks[k].lastShotTime)
  {
    for i := 0 to |g.tanks|
      invariant forall k :: 0 <= k < |g.tanks| && old(g.tanks[k].InBounds()) ==>
                  (g.tanks[k] in g.tanks[..i] ==> g.tanks[k].InBounds())
      invariant forall t :: t in g.tanks && t !in g.tanks[..i] ==>
                  t.x == old(t.x) && t.y == old(t.y) && t.direction == old(t.direction) && t.lastShotTime == old(t.lastShotTime)
      invariant forall k :: 0 <= k < |g.tanks| && (g.tanks[k].kind == Player || !g.tanks[k].isAlive) ==>
                  && g.tanks[k].x == old(g.tanks[k].x) && g.tanks[k].y == old(g.tanks[k].y)
                  && g.tanks[k].direction == old(g.tanks[k].direction)
                  && g.tanks[k].lastShotTime == old(g.tanks[k].lastShotTime)
    {
      var t := g.tanks[i];
      t.Update(now, wander[i].turn, wander[i].fire);
      assert g.tanks[..i + 1] == g.tanks[..i] + [t];
    }
  }

  /** `Game.update`: nothing once the game is over. Otherwise the controller updates,
      and if the game has started the rest of the frame runs (`Advance`). */
  method Update(c: GameController, now: int, aiDraws: seq<Draws>, wander: seq<Wander>)
    requires c.Valid()
    requires |aiDraws| == |c.game.tanks| && forall k :: 0 <= k < |aiDraws| ==> Drawn(aiDraws[k])
    requires |wander| == |c.game.tanks|
    modifies c.vision`visionMap, c.vision`sharedVisionEnabled, c.ai`aiStates
    modifies c.game`bullets, c.game`walls, c.game`tanks, c.game`gameOver, c.game`winner
    modifies c.game.tanks, c.game.bullets
    ensures c.Valid()
    ensures old(c.game.gameOver) ==>
              unchanged(c.game, c.vision, c.ai) && unchanged(c.game.tanks) && unchanged(c.game.bullets)
    ensures forall t :: t in c.game.tanks ==> t in old(c.game.tanks)
    ensures forall w :: w in c.game.walls ==> w in old(c.game.walls)
    ensures OfKind(c.game.walls, Metal) == old(OfKind(c.game.walls, Metal))
    ensures !old(c.game.gameOver) && c.gameStarted ==>
              && (!HasPlayer(c.game.tanks) ==> c.game.gameOver && c.game.winner == Some(EnemyLabel))
              && (HasPlayer(c.game.tanks) && !HasEnemy(c.game.tanks) ==> c.game.gameOver && c.game.winner == Some(PlayerLabel))
    ensures !c.gameStarted ==>
              c.game.tanks == old(c.game.tanks) && c.game.walls == old(c.game.walls)
              && c.game.gameOver == old(c.game.gameOver) && c.game.winner == old(c.game.winner)
  {
    if c.game.gameOver {
      return;
    }
    ghost var mid := c.Update(now, aiDraws);
    if c.gameStarted {
      Play(c.game, now, wander);
    }
  }

  /** The part of `Advance` the rest of `Game.update` relies on: tanks and walls are
      only ever removed, metal walls never, and the frame ends with the verdict of
      `check_game_over` on the tanks left. */
  method Play(g: Game, now: int, wander: seq<Wander>)
    requires g.Valid() && |wander| == |g.tanks|
    modifies g`bullets, g`walls, g`tanks, g`gameOver, g`winner, g.tanks, g.bullets
    ensures g.Valid()
    ensures forall t :: t in g.tanks ==> t in old(g.tanks)
    ensures forall w :: w in g.walls ==> w in old(g.walls)
    ensures OfKind(g.walls, Metal) == old(OfKind(g.walls, Metal))
    ensures !HasPlayer(g.tanks) ==> g.gameOver && g.winner == Some(EnemyLabel)
    ensures HasPlayer(g.tanks) && !HasEnemy(g.tanks) ==> g.gameOver && g.winner == Some(PlayerLabel)
  {
    ghost var moved, swept := Advance(g, now, wander);
  }

  /** The started part of `Game.update`: the tanks update (`moved` is how they stand
      then), the bullets advance and leave the screen (`swept` is the bullets left), the
      collision passes run over those, and the game-over check closes the frame on the
      tanks left. Tanks and walls are only ever removed, metal walls never. */
  method Advance(g: Game, now: int, wander: seq<Wander>) returns (ghost moved: seq<TankState>, ghost swept: seq<Shot>)
    requires g.Valid() && |wander| == |g.tanks|
    modifies g`bullets, g`walls, g`tanks, g`gameOver, g`winner, g.tanks, g.bullets
    ensures g.Valid()
    ensures |moved| == |old(g.tanks)|
    ensures forall k :: 0 <= k < |moved| ==>
              moved[k].tank == old(g.tanks[k]) && moved[k].hp == old(g.tanks[k].hitPoints) && moved[k].alive == old(g.tanks[k].isAlive)
    ensures forall k :: 0 <= k < |moved| && (old(g.tanks[k].kind) == Player || !old(g.tanks[k].isAlive)) ==>
              moved[k] == old(Snap(g.tanks[k]))
    ensures swept == OnScreen(MoveAll(old(Shots(g.bullets))))
    ensures var o := World.Collide(swept, old(g.walls), moved, old(g.base), old(g.gameOver), old(g.winner));
            && Shots(g.bullets) == o.shots && g.walls == o.walls && Snaps(g.tanks) == o.tanks
            && (g.gameOver, g.winner) == Verdict(HasEnemy(g.tanks), HasPlayer(g.tanks), o.over, o.winner)
    ensures g.base == old(g.base)
    ensures forall t :: t in g.tanks ==> t in old(g.tanks)
    ensures forall w :: w in g.walls ==> w in old(g.walls)
    ensures OfKind(g.walls, Metal) == old(OfKind(g.walls, Metal))
  {
    moved := MoveTanks(g, now, wander);
    swept := Finish(g, moved);
  }

  /** The bullet part of `Advance`, from the tanks as they stand (`moved`): the sweep
      (`swept` is what it leaves), then the collision passes and the game-over check. */
  method Finish(g: Game, ghost moved: seq<TankState>) returns (ghost swept: seq<Shot>)
    requires g.Valid() && moved == Snaps(g.tanks)
    modifies g`bullets, g`walls, g`tanks, g`gameOver, g`winner, g.tanks`hitPoints, g.tanks`isAlive, g.bullets
    ensures g.Valid() && g.base == old(g.base)
    ensures swept == OnScreen(MoveAll(old(Shots(g.bullets))))
    ensures var o := World.Collide(swept, old(g.walls), moved, old(g.base), old(g.gameOver), old(g.winner));
            && Shots(g.bullets) == o.shots && g.walls == o.walls && Snaps(g.tanks) == o.tanks
            && (g.gameOver, g.winner) == Verdict(HasEnemy(g.tanks), HasPlayer(g.tanks), o.over, o.winner)
    ensures forall t :: t in g.tanks ==> t in old(g.tanks)
    ensures forall w :: w in g.walls ==> w in old(g.walls)
    ensures OfKind(g.walls, Metal) == old(OfKind(g.walls, Metal))
  {
    swept := Sweep(g);
    Resolve(g);
  }

  /** The tank part of `Advance`: every tank's own update, with the snapshots of the
      tanks as they then stand. Hit points and life are untouched, player and dead
      tanks do not move, and no bullet changes. */
  method MoveTanks(g: Game, now: int, wander: seq<Wander>) returns (ghost moved: seq<TankState>)
    requires |wander| == |g.tanks|
    modifies g.tanks`aiTimer, g.tanks`direction, g.tanks`x, g.tanks`y, g.tanks`lastShotTime
    ensures moved == Snaps(g.tanks) && |moved| == |g.tanks|
    ensures forall k :: 0 <= k < |moved| ==>
              moved[k].tank == g.tanks[k] && moved[k].hp == old(g.tanks[k].hitPoints) && moved[k].alive == old(g.tanks[k].isAlive)
    ensures forall k :: 0 <= k < |moved| && (g.tanks[k].kind == Player || !g.tanks[k].isAlive) ==>
              moved[k] == old(Snap(g.tanks[k]))
    ensures Shots(g.bullets) == old(Shots(g.bullets))
  {
    UpdateTanks(g, now, wander);
    moved := Snaps(g.tanks);
    SnapsAt(g.tanks);
  }

  /** The bullet sweep of `Advance`: `swept` is what is left once every bullet has
      moved and the ones off screen are gone; no tank changes. */
  method Sweep(g: Game) returns (ghost swept: seq<Shot>)
    requires g.Valid()
    modifies g`bullets, g.bullets
    ensures g.Valid()
    ensures swept == Shots(g.bullets) && swept == OnScreen(MoveAll(old(Shots(g.bullets))))
    ensures Snaps(g.tanks) == old(Snaps(g.tanks))
  {
    g.AdvanceBullets();
    swept := Shots(g.bullets);
  }

  /** The collision part of `Advance`: the three passes over the bullets and tanks as
      they stand, then the game-over check on the tanks left. */
  method Resolve(g: Game)
    requires g.Valid()
    modifies g`bullets, g`walls, g`tanks, g`gameOver, g`winner, g.tanks`hitPoints, g.tanks`isAlive
    ensures g.Valid() && g.base == old(g.base)
    ensures var o := World.Collide(old(Shots(g.bullets)), old(g.walls), old(Snaps(g.tanks)), old(g.base), old(g.gameOver), old(g.winner));
            && Shots(g.bullets) == o.shots && g.walls == o.walls && Snaps(g.tanks) == o.tanks
            && (g.gameOver, g.winner) == Verdict(HasEnemy(g.tanks), HasPlayer(g.tanks), o.over, o.winner)
    ensures forall t :: t in g.tanks ==> t in old(g.tanks)
    ensures OfKind(g.walls, Metal) == old(OfKind(g.walls, Metal))
    ensures forall w :: w in g.walls ==> w in old(g.walls)
  {
    ghost var ss, ws := Shots(g.bullets), g.walls;
    g.CheckCollisions();
    WallPassKeepsMetal(ss, ws);
    g.CheckGameOver(true);
  }
}
