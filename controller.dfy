/** The game controller of game_controller.py: the set of held keys, the menu and
    started flags, the discrete key handler of a running game, the per-frame update
    (vision, then AI, then held-key movement) and the start of a new game. Key
    presses arrive as abstract events. */
module Controller {
  import opened Common
  import opened Objects
  import opened World
  import opened Collide
  import opened Vision
  import opened Ai
  import opened Level

  /** The keys the game reacts to; any other key is only recorded as held. */
  datatype Key = KeyW | KeyS | KeyA | KeyD | KeyJ | KeyR | KeyEscape | OtherKey(code: int)

  datatype Event = KeyDown(key: Key) | KeyUp(key: Key)

  /** The direction a movement key turns the player to (W up, S down, A left, D right). */
  function MoveKey(k: Key): (r: Option<Direction>)
    ensures r.Some? <==> k == KeyW || k == KeyS || k == KeyA || k == KeyD
  {
    match k
    case KeyW => Some(Up)
    case KeyS => Some(Down)
    case KeyA => Some(Left)
    case KeyD => Some(Right)
    case _ => None
  }

  /** The key that must be held for the player to keep moving while it faces `d`. */
  function HeldKey(d: Direction): Key {
    match d
    case Up => KeyW
    case Down => KeyS
    case Left => KeyA
    case Right => KeyD
  }

  /** The key handler and the held-key step agree on what each key means: a movement
      key turns the player to the direction whose held key it is, and back. */
  lemma KeysAgree(k: Key, d: Direction)
    ensures MoveKey(k) == Some(d) <==> HeldKey(d) == k
  {
    match d
    case Up =>
    case Down =>
    case Left =>
    case Right =>
  }

  /** One step along a direction changes one coordinate only, by at most the speed. */
  lemma FacingStep(x: int, y: int, d: Direction, speed: int)
    requires speed >= 0
    ensures var nx, ny := AxisStep(x, DirX(d) * speed, ScreenWidth - TankSize),
                          AxisStep(y, DirY(d) * speed, ScreenHeight - TankSize);
            && (nx == x || ny == y)
            && Abs(nx - x) <= speed && Abs(ny - y) <= speed
            && ((d == Up || d == Down) ==> nx == x)
            && ((d == Left || d == Right) ==> ny == y)
  {
  }

  /** The player tank after one held-key step: moved by one unit along its facing
      unless that move is blocked. */
  ghost predicate Stepped(t: Tank, ox: int, oy: int, blocked: bool)
    reads t`x, t`y, t`direction, t`speed
  {
    if blocked then t.x == ox && t.y == oy
    else t.x == AxisStep(ox, DirX(t.direction) * t.speed, ScreenWidth - t.size)
         && t.y == AxisStep(oy, DirY(t.direction) * t.speed, ScreenHeight - t.size)
  }

  /** Whether a movement key's one-unit step is vetoed for `t` where it stands; false
      for any other key. */
  predicate KeyBlocked(t: Tank, k: Key, ws: seq<Wall>, ts: seq<Tank>)
    reads t`x, t`y, t`speed, ts`x, ts`y, ts`isAlive
  {
    MoveKey(k).Some? && MoveBlocked(t, DirX(MoveKey(k).value), DirY(MoveKey(k).value), ws, ts)
  }

  /** The player tank `t` after it reacted to key `k` at time `now`, from position
      (x0, y0), facing `dir0`, last shot at `shot0`, with the bullet list `bs0`: a
      movement key turns it and makes one unit step unless `blocked`; the fire key
      appends one bullet of its own and stamps the shot when the cooldown allows; any
      other key changes nothing. */
  ghost predicate KeyDone(t: Tank, k: Key, now: int, x0: int, y0: int, dir0: Direction, shot0: int, blocked: bool,
                          bs0: seq<Bullet>, bs: seq<Bullet>)
    reads t`x, t`y, t`direction, t`speed, t`lastShotTime, t`shotCooldown, bs
  {
    && (MoveKey(k).Some? ==>
          t.direction == MoveKey(k).value && Stepped(t, x0, y0, blocked) && t.lastShotTime == shot0 && bs == bs0)
    && (k == KeyJ ==>
          && t.x == x0 && t.y == y0 && t.direction == dir0
          && (CanShoot(now, shot0, t.shotCooldown) ==>
                t.lastShotTime == now && |bs| == |bs0| + 1 && bs[..|bs0|] == bs0 && bs[|bs0|].owner == t)
          && (!CanShoot(now, shot0, t.shotCooldown) ==> t.lastShotTime == shot0 && bs == bs0))
    && (MoveKey(k).None? && k != KeyJ ==>
          t.x == x0 && t.y == y0 && t.direction == dir0 && t.lastShotTime == shot0 && bs == bs0)
  }

  class GameController {
    const game: Game
    const level: GameLevel
    const vision: VisionSystem
    const ai: AdvancedAI
    var keysPressed: set<Key>
    var gameStarted: bool
    var showMenu: bool

    /** The parts share the one game, and the game's lists and the AI states keep
        their invariants. */
    ghost predicate Valid()
      reads this, game, ai
    {
      && level.game == game && vision.game == game && ai.game == game && ai.vision == vision
      && game.Valid() && ai.Valid()
    }

    constructor (g: Game)
      requires g.Valid()
      ensures Valid() && game == g
      ensures keysPressed == {} && !gameStarted && showMenu
    {
      game := g;
      level := new GameLevel(g);
      var v := new VisionSystem(g);
      vision := v;
      ai := new AdvancedAI(g, v);
      keysPressed := {};
      gameStarted := false;
      showMenu := true;
    }

    /** `start_new_game`: a fresh level with the given draws, and the game leaves the menu. */
    method StartNewGame(d: LevelDraws)
      requires Valid() && DrawsOk(d)
      modifies game`walls, game`tanks, game`bullets, game`base, game`gameOver, game`winner
      modifies this`gameStarted, this`showMenu
      ensures Valid() && Started(game, d)
      ensures gameStarted && !showMenu
    {
      level.StartLevel(d);
      gameStarted := true;
      showMenu := false;
    }

    /** The player part of `handle_game_input` for a key press: a movement key turns
        the tank and then makes one unit move unless the collision check vetoes it; the
        fire key adds the bullet `shoot` yields, if any; other keys do nothing here. */
    method PlayerKey(t: Tank, k: Key, now: int)
      requires Valid() && t in game.tanks
      modifies t`x, t`y, t`direction, t`lastShotTime, game`bullets
      ensures Valid()
      ensures KeyDone(t, k, now, old(t.x), old(t.y), old(t.direction), old(t.lastShotTime),
                      old(KeyBlocked(t, k, game.walls, game.tanks)), old(game.bullets), game.bullets)
      ensures |game.bullets| > |old(game.bullets)| ==> fresh(game.bullets[|old(game.bullets)|])
      ensures old(t.InBounds()) ==> t.InBounds()
    {
      var d := MoveKey(k);
      if d.Some? {
        t.Rotate(d.value);
        var dx, dy := DirX(d.value), DirY(d.value);
        var blocked := CheckTankWallCollision(game, t, dx, dy);
        if !blocked {
          t.Move(dx, dy);
        }
      } else if k == KeyJ {
        var b := t.Shoot(now);
        if b.Some? {
          DistinctSnoc(game.bullets, b.value);
          game.bullets := game.bullets + [b.value];
        }
      }
    }

    /** `handle_game_input`: a press is recorded as held and handled by `PressKey`; a
        release forgets the key and changes nothing else. */
    method HandleGameInput(ev: Event, now: int, d: LevelDraws)
      requires Valid() && DrawsOk(d)
      modifies this`keysPressed, this`gameStarted, this`showMenu
      modifies game`walls, game`tanks, game`bullets, game`base, game`gameOver, game`winner
      modifies game.tanks`x, game.tanks`y, game.tanks`direction, game.tanks`lastShotTime
      ensures Valid()
      ensures ev.KeyUp? ==> keysPressed == old(keysPressed) - {ev.key} && unchanged(game) && unchanged(game.tanks)
                            && gameStarted == old(gameStarted) && showMenu == old(showMenu)
      ensures ev.KeyDown? ==> keysPressed == old(keysPressed) + {ev.key}
      ensures ev == KeyDown(KeyR) ==> Started(game, d) && gameStarted && !showMenu
      ensures ev == KeyDown(KeyEscape) ==> showMenu && !gameStarted
      ensures ev.KeyDown? && ev.key != KeyR ==>
                && game.walls == old(game.walls) && game.tanks == old(game.tanks) && game.base == old(game.base)
                && game.gameOver == old(game.gameOver) && game.winner == old(game.winner)
      ensures ev.KeyDown? && ev.key != KeyR && ev.key != KeyEscape ==>
                gameStarted == old(gameStarted) && showMenu == old(showMenu)
      ensures ev.KeyDown? && ev.key != KeyR ==>
                var p := old(FirstPlayer(game.tanks));
                var live := p.Some? && old(p.value.isAlive);
                && (live ==> KeyDone(p.value, ev.key, now, old(p.value.x), old(p.value.y), old(p.value.direction), old(p.value.lastShotTime),
                                     old(KeyBlocked(p.value, ev.key, game.walls, game.tanks)), old(game.bullets), game.bullets))
                && (!live ==> game.bullets == old(game.bullets))
                && (forall u :: u in game.tanks && !(live && u == p.value) ==>
                      u.x == old(u.x) && u.y == old(u.y) && u.direction == old(u.direction) && u.lastShotTime == old(u.lastShotTime))
    {
      if ev.KeyUp? {
        keysPressed := keysPressed - {ev.key};
      } else {
        keysPressed := keysPressed + {ev.key};
        PressKey(ev.key, now, d);
      }
    }

    /** The rest of a key press: the living player tank, if there is one, reacts through
        `PlayerKey`; then R restarts with a new level and ESC returns to the menu. */
    method PressKey(k: Key, now: int, d: LevelDraws)
      requires Valid() && DrawsOk(d)
      modifies this`gameStarted, this`showMenu
      modifies game`walls, game`tanks, game`bullets, game`base, game`gameOver, game`winner
      modifies game.tanks`x, game.tanks`y, game.tanks`direction, game.tanks`lastShotTime
      ensures Valid()
      ensures k == KeyR ==> Started(game, d) && gameStarted && !showMenu
      ensures k == KeyEscape ==> showMenu && !gameStarted
      ensures k != KeyR ==>
                && game.walls == old(game.walls) && game.tanks == old(game.tanks) && game.base == old(game.base)
                && game.gameOver == old(game.gameOver) && game.winner == old(game.winner)
      ensures k != KeyR && k != KeyEscape ==> gameStarted == old(gameStarted) && showMenu == old(showMenu)
      ensures k != KeyR ==>
                var p := old(FirstPlayer(game.tanks));
                var live := p.Some? && old(p.value.isAlive);
                && (live ==> KeyDone(p.value, k, now, old(p.value.x), old(p.value.y), old(p.value.direction), old(p.value.lastShotTime),
                                     old(KeyBlocked(p.value, k, game.walls, game.tanks)), old(game.bullets), game.bullets))
                && (!live ==> game.bullets == old(game.bullets))
                && (forall u :: u in game.tanks && !(live && u == p.value) ==>
                      u.x == old(u.x) && u.y == old(u.y) && u.direction == old(u.direction) && u.lastShotTime == old(u.lastShotTime))
    {
      PlayerPress(k, now);
      if k == KeyR {
        StartNewGame(d);
      } else if k == KeyEscape {
        showMenu := true;
        gameStarted := false;
      }
    }

    /** The player part of a key press: the living player tank, if there is one, reacts
        through `PlayerKey`; no other tank changes, and without a living player no
        bullet appears. */
    method PlayerPress(k: Key, now: int)
      requires Valid()
      modifies game`bullets, game.tanks`x, game.tanks`y, game.tanks`direction, game.tanks`lastShotTime
      ensures Valid()
      ensures var p := old(FirstPlayer(game.tanks));
              var live := p.Some? && old(p.value.isAlive);
              && (live ==> KeyDone(p.value, k, now, old(p.value.x), old(p.value.y), old(p.value.direction), old(p.value.lastShotTime),
                                   old(KeyBlocked(p.value, k, game.walls, game.tanks)), old(game.bullets), game.bullets))
              && (!live ==> game.bullets == old(game.bullets))
              && (forall u :: u in game.tanks && !(live && u == p.value) ==>
                    u.x == old(u.x) && u.y == old(u.y) && u.direction == old(u.direction) && u.lastShotTime == old(u.lastShotTime))
    {
      var p := GetPlayerTank(game);
      if p.Some? && p.value.isAlive {
        FirstPlayerSpec(game.tanks);
        PlayerKey(p.value, k, now);
      }
    }

    /** `handle_continuous_input`: a living player tank moves one unit along its facing
        when the key for that facing is held and the collision check allows it; nothing
        else moves, and nothing turns. */
    method HandleContinuousInput()
      requires Valid()
      modifies game.tanks`x, game.tanks`y
      ensures Valid()
      ensures var p := FirstPlayer(game.tanks);
              forall u :: u in game.tanks && (p.None? || u != p.value) ==> u.x == old(u.x) && u.y == old(u.y)
      ensures var p := FirstPlayer(game.tanks);
              p.Some? ==>
                var t := p.value;
                var go := t.isAlive && HeldKey(t.direction) in keysPressed;
                Stepped(t, old(t.x), old(t.y), !go || old(MoveBlocked(t, DirX(t.direction), DirY(t.direction), game.walls, game.tanks)))
      ensures var p := FirstPlayer(game.tanks);
              p.Some? ==>
                var t := p.value;
                var go := t.isAlive && HeldKey(t.direction) in keysPressed;
                var r := old(Shifted(t, DirX(t.direction), DirY(t.direction)));
                Stepped(t, old(t.x), old(t.y), !go || WallBlocks(r, game.walls) || SnapBlocks(r, t, old(Snaps(game.tanks))))
    {
      var p := GetPlayerTank(game);
      if p.Some? {
        var t := p.value;
        SnapBlocksAgree(Shifted(t, DirX(t.direction), DirY(t.direction)), t, game.tanks);
      }
      if p.None? || !p.value.isAlive {
        return;
      }
      FirstPlayerSpec(game.tanks);
      HeldStep(p.value);
    }

    /** The held-key step for the living player tank `t`: the branch on its facing
        picks the key to look for and the unit step to try. */
    method HeldStep(t: Tank)
      requires Valid() && t in game.tanks
      modifies t`x, t`y
      ensures Valid()
      ensures Stepped(t, old(t.x), old(t.y),
                      HeldKey(t.direction) !in keysPressed || old(MoveBlocked(t, DirX(t.direction), DirY(t.direction), game.walls, game.tanks)))
    {
      var dx, dy := 0, 0;
      match t.direction {
        case Up =>
          if KeyW in keysPressed {
            dy := -1;
          }
        case Down =>
          if KeyS in keysPressed {
            dy := 1;
          }
        case Left =>
          if KeyA in keysPressed {
            dx := -1;
          }
        case Right =>
          if KeyD in keysPressed {
            dx := 1;
          }
      }
      if dx != 0 || dy != 0 {
        var blocked := CheckTankWallCollision(game, t, dx, dy);
        if !blocked {
          t.Move(dx, dy);
        }
      }
    }

    /** `update`: nothing before the game has started; then vision first, so the map
        holds what each living tank saw before the AI moved anyone, then the AI for every
        living enemy, then the held-key step of the player. */
    method Update(now: int, draws: seq<Draws>) returns (ghost mid: seq<TankState>)
      requires Valid() && |draws| == |game.tanks| && forall k :: 0 <= k < |draws| ==> Drawn(draws[k])
      modifies vision`visionMap, vision`sharedVisionEnabled, ai`aiStates, game`bullets
      modifies game.tanks`x, game.tanks`y, game.tanks`direction, game.tanks`lastShotTime
      ensures Valid()
      ensures !gameStarted ==> unchanged(vision, ai, game) && unchanged(game.tanks)
      ensures gameStarted ==>
                && (vision.sharedVisionEnabled <==> old(CommanderAlive(game.tanks)))
                && vision.visionMap == old(Seen(game.tanks, game.walls))
                && (forall t :: t in ai.aiStates <==> t in old(ai.aiStates) || (t in game.tanks && t.kind != Player && t.isAlive))
      ensures gameStarted ==>
                && |mid| == |game.tanks|
                && (forall k :: 0 <= k < |mid| ==>
                      mid[k].tank == game.tanks[k] && mid[k].hp == game.tanks[k].hitPoints && mid[k].alive == game.tanks[k].isAlive)
                && (forall k :: 0 <= k < |mid| && !Hunts(game.tanks[k]) ==> mid[k] == old(Snap(game.tanks[k])))
      ensures gameStarted ==>
                var p := FirstPlayer(game.tanks);
                && (forall k :: 0 <= k < |mid| && (p.None? || game.tanks[k] != p.value) ==> game.tanks[k].Bounds() == mid[k].box)
                && (p.Some? ==>
                      var t := p.value;
                      var go := t.isAlive && HeldKey(t.direction) in keysPressed;
                      var r := old(Shifted(t, DirX(t.direction), DirY(t.direction)));
                      Stepped(t, old(t.x), old(t.y), !go || WallBlocks(r, game.walls) || SnapBlocks(r, t, mid)))
      ensures game.tanks == old(game.tanks) && game.walls == old(game.walls)
      ensures fresh(set b | b in game.bullets && b !in old(game.bullets))
    {
      if !gameStarted {
        return [];
      }
      See();
      ghost var p := FirstPlayer(game.tanks);
      if p.Some? {
        ghost var t := p.value;
        assert Shifted(t, DirX(t.direction), DirY(t.direction)) == old(Shifted(t, DirX(t.direction), DirY(t.direction)));
      }
      mid := Think(now, draws);
    }

    /** The vision step of `update`: the map and the sharing flag are rebuilt from the
        tanks as they stand. */
    method See()
      requires Valid()
      modifies vision`visionMap, vision`sharedVisionEnabled
      ensures Valid()
      ensures vision.sharedVisionEnabled <==> old(CommanderAlive(game.tanks))
      ensures vision.visionMap == old(Seen(game.tanks, game.walls))
    {
      vision.UpdateVision();
    }

    /** The AI step of `update` for every living enemy, then the held-key step of the
        player. `mid` is how the tanks stand between the two: the AI has moved no
        player tank and no dead one and has changed no one's health, and the player's
        held-key step is tested against the tanks where the AI left them. */
    method Think(now: int, draws: seq<Draws>) returns (ghost mid: seq<TankState>)
      requires Valid() && |draws| == |game.tanks| && forall k :: 0 <= k < |draws| ==> Drawn(draws[k])
      modifies ai`aiStates, game`bullets
      modifies game.tanks`x, game.tanks`y, game.tanks`direction, game.tanks`lastShotTime
      ensures Valid()
      ensures forall t :: t in ai.aiStates <==> t in old(ai.aiStates) || (t in game.tanks && t.kind != Player && t.isAlive)
      ensures fresh(set b | b in game.bullets && b !in old(game.bullets))
      ensures |mid| == |game.tanks|
      ensures forall k :: 0 <= k < |mid| ==>
                mid[k].tank == game.tanks[k] && mid[k].hp == game.tanks[k].hitPoints && mid[k].alive == game.tanks[k].isAlive
      ensures forall k :: 0 <= k < |mid| && !Hunts(game.tanks[k]) ==> mid[k] == old(Snap(game.tanks[k]))
      ensures var p := FirstPlayer(game.tanks);
              forall k :: 0 <= k < |mid| && (p.None? || game.tanks[k] != p.value) ==> game.tanks[k].Bounds() == mid[k].box
      ensures var p := FirstPlayer(game.tanks);
              p.Some? ==>
                var t := p.value;
                var go := t.isAlive && HeldKey(t.direction) in keysPressed;
                var r := old(Shifted(t, DirX(t.direction), DirY(t.direction)));
                Stepped(t, old(t.x), old(t.y), !go || WallBlocks(r, game.walls) || SnapBlocks(r, t, mid))
    {
      mid := AiStep(now, draws);
      var p := FirstPlayer(game.tanks);
      if p.Some? {
        var t := p.value;
        assert t in game.tanks && !Hunts(t);
      }
      HandleContinuousInput();
    }

    /** The AI part of `Think`, with the snapshots of the tanks it leaves: player and
        dead tanks keep their place and facing, and no one's health changes. */
    method AiStep(now: int, draws: seq<Draws>) returns (ghost mid: seq<TankState>)
      requires Valid() && |draws| == |game.tanks| && forall k :: 0 <= k < |draws| ==> Drawn(draws[k])
      modifies ai`aiStates, game`bullets
      modifies game.tanks`x, game.tanks`y, game.tanks`direction, game.tanks`lastShotTime
      ensures Valid()
      ensures forall t :: t in ai.aiStates <==> t in old(ai.aiStates) || (t in game.tanks && t.kind != Player && t.isAlive)
      ensures fresh(set b | b in game.bullets && b !in old(game.bullets))
      ensures |mid| == |game.tanks| && forall k :: 0 <= k < |mid| ==> mid[k] == Snap(game.tanks[k])
      ensures forall k :: 0 <= k < |mid| && !Hunts(game.tanks[k]) ==> mid[k] == old(Snap(game.tanks[k]))
      ensures forall u :: u in game.tanks && !Hunts(u) ==> u.x == old(u.x) && u.y == old(u.y) && u.direction == old(u.direction)
    {
      ai.UpdateAi(now, draws);
      mid := Snaps(game.tanks);
      SnapsAt(game.tanks);
    }
  }
}
