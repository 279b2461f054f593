/** The enemy AI of vision_ai.py (`AdvancedAI`): a per-tank state machine over patrol,
    attack and defend, re-deciding at most once a second, with an attack cooldown, a
    patrol stuck counter, and a movement routine that commits the first unit step the
    collision check does not veto. Random draws are passed in as `Draws`. */
module Ai {
  import opened Common
  import opened Objects
  import opened World
  import opened Collide
  import opened Vision

  datatype Mode = Patrol | Attack | Defend

  /** The per-tank state dictionary. The patrol target is a non-empty tuple, which
      Python always treats as true, so it is never absent. */
  datatype AiState = AiState(mode: Mode, target: Option<Tank>, lastDecisionTime: int,
                             patrolTarget: (int, int), attackCooldown: int, stuckCounter: int)

  /** The random choices one `update_tank_ai` may consume: four `get_random_position`
      results (for a new state, a decision, a stuck patrol and a reached target), the
      patrol's random turn (None when the 0.3 draw fails) and the defence ring point
      relative to the base centre (`100 * (cos a, sin a)`, as integers). */
  datatype Draws = Draws(initTarget: (int, int), decideTarget: (int, int), stuckTarget: (int, int),
                         reachedTarget: (int, int), turn: Option<Direction>, ring: (int, int))

  /** `get_random_position`'s range. */
  predicate RandomPosition(p: (int, int)) {
    TankSize <= p.0 <= ScreenWidth - TankSize && TankSize <= p.1 <= ScreenHeight - TankSize
  }

  predicate Drawn(dr: Draws) {
    && RandomPosition(dr.initTarget) && RandomPosition(dr.decideTarget)
    && RandomPosition(dr.stuckTarget) && RandomPosition(dr.reachedTarget)
    && -100 <= dr.ring.0 <= 100 && -100 <= dr.ring.1 <= 100
  }

  const ShootRange := 200
  const AttackCooldown := 30
  const StuckLimit := 10
  const ReachRadius := 20
  const DecisionGap := 1000

  /** The invariant every state keeps: the cooldown between 0 and 30, the stuck counter
      between 0 and 10, the patrol target a random position. */
  predicate Sane(st: AiState) {
    0 <= st.attackCooldown <= AttackCooldown && 0 <= st.stuckCounter <= StuckLimit
    && RandomPosition(st.patrolTarget)
  }

  /** Squared distance; the source compares `sqrt` of these, which orders them alike. */
  function Dist2(dx: int, dy: int): (r: nat) {
    dx * dx + dy * dy
  }

  // ---------------------------------------------------------------------------
  // Facing and steering

  /** The facing `execute_attack` chooses: the horizontal direction toward the target
      when it is strictly further off horizontally, the vertical one otherwise. */
  function AttackFacing(dx: int, dy: int): Direction {
    if Abs(dx) > Abs(dy) then (if dx > 0 then Right else Left)
    else (if dy > 0 then Down else Up)
  }

  /** The attack facing points along the larger offset toward the target (a tie picks
      the vertical axis), so one step that way closes the larger gap. */
  lemma AttackFacingToward(dx: int, dy: int)
    ensures Abs(dx) == Abs(dy) ==> DirX(AttackFacing(dx, dy)) == 0
    ensures (dx, dy) != (0, 0) ==>
              DirX(AttackFacing(dx, dy)) * dx + DirY(AttackFacing(dx, dy)) * dy == Max(Abs(dx), Abs(dy))
  {
  }

  function Sign(v: int): (r: int)
    ensures r * v == Abs(v) && -1 <= r <= 1
  {
    if v > 0 then 1 else if v < 0 then -1 else 0
  }

  /** The preferred candidates of `move_towards`: toward the target along the larger
      offset first (the vertical one on a tie), then the other axis both ways, then away. */
  function Preferred(dx: int, dy: int): (r: seq<(int, int)>)
    ensures |r| == 4 && forall k :: 0 <= k < |r| ==> r[k] == (0, 0) || r[k] in Fallback
  {
    var px, py := Sign(dx), Sign(dy);
    if Abs(dx) > Abs(dy) then [(px, 0), (0, py), (0, -py), (-px, 0)]
    else [(0, py), (px, 0), (-px, 0), (0, -py)]
  }

  /** The fallback candidates, every unit step in a fixed order. */
  const Fallback: seq<(int, int)> := [(1, 0), (-1, 0), (0, 1), (0, -1)]

  /** The facing `move_towards` gives a unit step. */
  function Facing(c: (int, int)): Direction {
    if c.0 > 0 then Right else if c.0 < 0 then Left else if c.1 > 0 then Down else Up
  }

  /** A unit step's facing points the way of the step. */
  lemma FacingMatchesStep(c: (int, int))
    requires c in Fallback
    ensures DirX(Facing(c)) == c.0 && DirY(Facing(c)) == c.1
  {
  }

  /** The candidates without the null steps, which the loop skips. */
  function NonZero(cs: seq<(int, int)>): (r: seq<(int, int)>)
    ensures forall k :: 0 <= k < |r| ==> r[k] != (0, 0) && r[k] in cs
  {
    if cs == [] then []
    else if cs[0] == (0, 0) then NonZero(cs[1..])
    else [cs[0]] + NonZero(cs[1..])
  }

  /** The order in which `move_towards` tries steps. */
  function Order(dx: int, dy: int): seq<(int, int)> {
    NonZero(Preferred(dx, dy)) + Fallback
  }

  /** The first candidate in `free`. */
  function FirstFree(cs: seq<(int, int)>, free: set<(int, int)>): Option<(int, int)> {
    if cs == [] then None
    else if cs[0] in free then Some(cs[0])
    else FirstFree(cs[1..], free)
  }

  lemma {:induction false} FirstFreeSpec(cs: seq<(int, int)>, free: set<(int, int)>)
    ensures FirstFree(cs, free).None? <==> forall k :: 0 <= k < |cs| ==> cs[k] !in free
    ensures FirstFree(cs, free).Some? ==>
              exists k :: 0 <= k < |cs| && cs[k] == FirstFree(cs, free).value && cs[k] in free
                          && forall j :: 0 <= j < k ==> cs[j] !in free
  {
    if cs != [] && cs[0] !in free {
      FirstFreeSpec(cs[1..], free);
      if FirstFree(cs, free).Some? {
        var k :| 0 <= k < |cs[1..]| && cs[1..][k] == FirstFree(cs, free).value && cs[1..][k] in free
                 && forall j :: 0 <= j < k ==> cs[1..][j] !in free;
        assert cs[k + 1] == cs[1..][k];
        assert forall j :: 1 <= j < k + 1 ==> cs[j] == cs[1..][j - 1];
      } else {
        assert forall k :: 1 <= k < |cs| ==> cs[k] == cs[1..][k - 1];
      }
    }
    if cs != [] && cs[0] in free {
      assert cs[0] == FirstFree(cs, free).value;
    }
  }

  /** The fallback loop: the first free step, facing it; the facing is kept when every
      step is blocked. */
  function TryFallback(cs: seq<(int, int)>, free: set<(int, int)>, facing: Direction): (Option<(int, int)>, Direction) {
    if cs == [] then (None, facing)
    else if cs[0] in free then (Some(cs[0]), Facing(cs[0]))
    else TryFallback(cs[1..], free, facing)
  }

  /** The preferred loop: each non-null candidate turns the tank before it is checked,
      so a fully blocked loop leaves the tank facing its last candidate. */
  function TryPreferred(cs: seq<(int, int)>, free: set<(int, int)>, facing: Direction): (Option<(int, int)>, Direction) {
    if cs == [] then (None, facing)
    else if cs[0] == (0, 0) then TryPreferred(cs[1..], free, facing)
    else if cs[0] in free then (Some(cs[0]), Facing(cs[0]))
    else TryPreferred(cs[1..], free, Facing(cs[0]))
  }

  /** `move_towards` as a choice: nothing within 5 units on both axes, otherwise the
      preferred loop and then the fallback loop. `free` holds the unit steps the
      collision check allows; the result is the step taken and the final facing. */
  function Steer(dx: int, dy: int, free: set<(int, int)>, facing: Direction): (Option<(int, int)>, Direction) {
    if Abs(dx) <= 5 && Abs(dy) <= 5 then (None, facing)
    else
      var r := TryPreferred(Preferred(dx, dy), free, facing);
      if r.0.Some? then r else TryFallback(Fallback, free, r.1)
  }

  /** Away from the target, `Steer` is the preferred loop and, when that finds no
      step, the fallback loop from the facing it left. */
  lemma SteerSplit(dx: int, dy: int, free: set<(int, int)>, facing: Direction)
    requires !(Abs(dx) <= 5 && Abs(dy) <= 5)
    ensures var pre := TryPreferred(Preferred(dx, dy), free, facing);
            Steer(dx, dy, free, facing) == if pre.0.Some? then pre else TryFallback(Fallback, free, pre.1)
  {
  }

  lemma {:induction false} TryFallbackIs(cs: seq<(int, int)>, free: set<(int, int)>, facing: Direction)
    ensures TryFallback(cs, free, facing).0 == FirstFree(cs, free)
    ensures TryFallback(cs, free, facing).0.Some? ==> TryFallback(cs, free, facing).1 == Facing(TryFallback(cs, free, facing).0.value)
  {
    if cs != [] && cs[0] !in free {
      TryFallbackIs(cs[1..], free, facing);
    }
  }

  lemma {:induction false} TryPreferredIs(cs: seq<(int, int)>, free: set<(int, int)>, facing: Direction)
    ensures TryPreferred(cs, free, facing).0 == FirstFree(NonZero(cs), free)
    ensures TryPreferred(cs, free, facing).0.Some? ==> TryPreferred(cs, free, facing).1 == Facing(TryPreferred(cs, free, facing).0.value)
  {
    if cs != [] && cs[0] == (0, 0) {
      TryPreferredIs(cs[1..], free, facing);
    } else if cs != [] {
      var rest := NonZero(cs[1..]);
      assert NonZero(cs) == [cs[0]] + rest;
      assert ([cs[0]] + rest)[1..] == rest;
      if cs[0] !in free {
        TryPreferredIs(cs[1..], free, Facing(cs[0]));
      }
    }
  }

  /** Searching a concatenation searches the second part only when the first has no
      free candidate. */
  lemma {:induction false} FirstFreeAppend(a: seq<(int, int)>, b: seq<(int, int)>, free: set<(int, int)>)
    ensures FirstFree(a + b, free) == if FirstFree(a, free).Some? then FirstFree(a, free) else FirstFree(b, free)
  {
    if a != [] {
      assert (a + b)[1..] == a[1..] + b;
      FirstFreeAppend(a[1..], b, free);
    } else {
      assert a + b == b;
    }
  }

  /** What `move_towards` promises: within 5 units on both axes it does nothing;
      otherwise it takes a step exactly when some unit step is free, the step taken is
      the first free one in the preferred-then-fallback order, it is a unit step, and
      the tank ends up facing it. */
  lemma SteerSpec(dx: int, dy: int, free: set<(int, int)>, facing: Direction)
    ensures Abs(dx) <= 5 && Abs(dy) <= 5 ==> Steer(dx, dy, free, facing) == (None, facing)
    ensures !(Abs(dx) <= 5 && Abs(dy) <= 5) ==>
              var r := Steer(dx, dy, free, facing);
              var order := Order(dx, dy);
              && (r.0.None? <==> forall k :: 0 <= k < |Fallback| ==> Fallback[k] !in free)
              && (r.0.Some? ==> && r.0.value in Fallback && r.0.value in free
                                && r.1 == Facing(r.0.value)
                                && exists k :: 0 <= k < |order| && order[k] == r.0.value
                                               && forall j :: 0 <= j < k ==> order[j] !in free)
  {
    if !(Abs(dx) <= 5 && Abs(dy) <= 5) {
      var order := Order(dx, dy);
      var r := TryPreferred(Preferred(dx, dy), free, facing);
      TryPreferredIs(Preferred(dx, dy), free, facing);
      TryFallbackIs(Fallback, free, r.1);
      FirstFreeAppend(NonZero(Preferred(dx, dy)), Fallback, free);
      FirstFreeSpec(order, free);
      var nz := NonZero(Preferred(dx, dy));
      assert forall k :: 0 <= k < |nz| ==> nz[k] in Fallback;
      assert forall k :: 0 <= k < |Fallback| ==> order[|nz| + k] == Fallback[k];
    }
  }

  /** When the step toward the target along the larger offset is free, that is the
      step taken. */
  lemma SteerPrefersTarget(dx: int, dy: int, free: set<(int, int)>, facing: Direction)
    requires !(Abs(dx) <= 5 && Abs(dy) <= 5)
    requires Preferred(dx, dy)[0] in free
    ensures Steer(dx, dy, free, facing).0 == Some(Preferred(dx, dy)[0])
    ensures Preferred(dx, dy)[0] == (if Abs(dx) > Abs(dy) then (Sign(dx), 0) else (0, Sign(dy)))
    ensures Preferred(dx, dy)[0] != (0, 0)
  {
  }

  /** The unit steps the collision check lets `t` take among walls `ws` and tanks `ts`. */
  function FreeSteps(t: Tank, ws: seq<Wall>, ts: seq<Tank>): set<(int, int)>
    reads t`x, t`y, t`speed, ts`x, ts`y, ts`isAlive
  {
    set c | c in Fallback && !MoveBlocked(t, c.0, c.1, ws, ts)
  }

  /** The first living player tank, the one the AI hunts. */
  function FirstAlivePlayer(ts: seq<Tank>): (r: Option<Tank>)
    reads ts`isAlive
    ensures r.Some? ==> r.value in ts && r.value.kind == Player && r.value.isAlive
  {
    if ts == [] then None
    else if ts[0].kind == Player && ts[0].isAlive then Some(ts[0])
    else FirstAlivePlayer(ts[1..])
  }

  /** `FirstAlivePlayer` finds none exactly when no player tank is alive. */
  lemma {:induction false} FirstAlivePlayerNone(ts: seq<Tank>)
    ensures FirstAlivePlayer(ts).None? <==> forall k :: 0 <= k < |ts| ==> !(ts[k].kind == Player && ts[k].isAlive)
  {
    if ts != [] {
      FirstAlivePlayerNone(ts[1..]);
      assert forall k :: 1 <= k < |ts| ==> ts[k] == ts[1..][k - 1];
    }
  }

  /** The patrol bookkeeping after a move: no progress counts one more stuck step and
      after more than ten picks a new target; progress resets the count; reaching the
      target (as measured before any new target) picks a new one and resets the count. */
  function Bookkeep(st: AiState, progressed: bool, reached: bool, dr: Draws): (r: AiState)
    ensures r.mode == st.mode && r.target == st.target && r.lastDecisionTime == st.lastDecisionTime
    ensures r.attackCooldown == st.attackCooldown
    ensures st.stuckCounter >= 0 ==> 0 <= r.stuckCounter <= StuckLimit
    ensures reached ==> r.stuckCounter == 0 && r.patrolTarget == dr.reachedTarget
    ensures !reached && !progressed && st.stuckCounter + 1 <= StuckLimit ==>
              r.stuckCounter == st.stuckCounter + 1 && r.patrolTarget == st.patrolTarget
    ensures r.patrolTarget in {st.patrolTarget, dr.stuckTarget, dr.reachedTarget}
  {
    var (stuck, target) :=
      if progressed then (0, st.patrolTarget)
      else if st.stuckCounter + 1 > StuckLimit then (0, dr.stuckTarget)
      else (st.stuckCounter + 1, st.patrolTarget);
    if reached then st.(patrolTarget := dr.reachedTarget, stuckCounter := 0)
    else st.(patrolTarget := target, stuckCounter := stuck)
  }
  /** The state `update_tank_ai` creates for a tank it has not seen: patrolling toward a
      random position, with no target and no decision yet. */
  function NewState(patrolTarget: (int, int)): (r: AiState)
    ensures r.mode == Patrol && r.target.None? && r.lastDecisionTime == 0
    ensures RandomPosition(patrolTarget) ==> Sane(r)
  {
    AiState(Patrol, None, 0, patrolTarget, 0, 0)
  }

  /** `make_ai_decision` on state `st` for a tank at `pos`: attack the living player
      it sees (`spotted`), else defend if it is a commander, else patrol, taking the
      random position `drawn` as waypoint once within 20 units of the old one. */
  function Decide(st: AiState, commander: bool, pos: (int, int), spotted: Option<Tank>, drawn: (int, int)): AiState {
    if spotted.Some? then st.(mode := Attack, target := spotted)
    else if commander then st.(mode := Defend)
    else if Dist2(pos.0 - st.patrolTarget.0, pos.1 - st.patrolTarget.1) < ReachRadius * ReachRadius
    then st.(mode := Patrol, patrolTarget := drawn)
    else st.(mode := Patrol)
  }

  /** What a decision changes: the tank attacks exactly when it sees the player,
      defends exactly when it does not and is a commander, and patrols otherwise; the
      target becomes the player it sees; the waypoint changes only on patrol and only
      within 20 units of the old one, to the drawn position; the clocks, counters and
      the state bounds stay. */
  lemma DecideEffect(st: AiState, commander: bool, pos: (int, int), spotted: Option<Tank>, drawn: (int, int))
    ensures var r := Decide(st, commander, pos, spotted, drawn);
            && (r.mode == Attack <==> spotted.Some?)
            && (r.mode == Defend <==> spotted.None? && commander)
            && r.target == (if spotted.Some? then spotted else st.target)
            && (r.patrolTarget == drawn || r.patrolTarget == st.patrolTarget)
            && (r.patrolTarget != st.patrolTarget ==>
                  r.mode == Patrol && Dist2(pos.0 - st.patrolTarget.0, pos.1 - st.patrolTarget.1) < ReachRadius * ReachRadius)
            && (spotted.None? && !commander && Dist2(pos.0 - st.patrolTarget.0, pos.1 - st.patrolTarget.1) < ReachRadius * ReachRadius ==>
                  r.patrolTarget == drawn)
            && r.lastDecisionTime == st.lastDecisionTime && r.attackCooldown == st.attackCooldown
            && r.stuckCounter == st.stuckCounter
            && (Sane(st) && RandomPosition(drawn) ==> Sane(r))
  {
  }

  /** The attack cooldown counted down by one frame, never below zero. */
  function Cooled(st: AiState): AiState {
    if st.attackCooldown > 0 then st.(attackCooldown := st.attackCooldown - 1) else st
  }

  /** The bookkeeping half of `update_tank_ai` on an existing state: the cooldown
      counts down, then, only when more than a second has passed since the last
      decision, the tank re-decides and the decision time becomes `now`. */
  function Prepared(st: AiState, now: int, commander: bool, pos: (int, int), spotted: Option<Tank>, drawn: (int, int)): AiState {
    var cooled := Cooled(st);
    if now - cooled.lastDecisionTime > DecisionGap
    then Decide(cooled, commander, pos, spotted, drawn).(lastDecisionTime := now)
    else cooled
  }

  /** The decision gate: the cooldown always counts down; past the one-second gap the
      state is the decision's, stamped `now`; within it mode, target, waypoint, stuck
      count and decision time all stay. The state bounds are kept either way. */
  lemma PreparedGate(st: AiState, now: int, commander: bool, pos: (int, int), spotted: Option<Tank>, drawn: (int, int))
    ensures var r := Prepared(st, now, commander, pos, spotted, drawn);
            && r.attackCooldown == (if st.attackCooldown > 0 then st.attackCooldown - 1 else st.attackCooldown)
            && (now - st.lastDecisionTime > DecisionGap ==>
                  r == Decide(st, commander, pos, spotted, drawn).(lastDecisionTime := now, attackCooldown := r.attackCooldown))
            && (now - st.lastDecisionTime <= DecisionGap ==> r == st.(attackCooldown := r.attackCooldown))
            && (Sane(st) && RandomPosition(drawn) ==> Sane(r))
  {
  }


  /** The defence point pulled into the screen with a tank's margin on every side. */
  function ClampDefence(p: (int, int)): (r: (int, int))
    ensures TankSize <= r.0 <= ScreenWidth - TankSize && TankSize <= r.1 <= ScreenHeight - TankSize
    ensures RandomPosition(p) ==> r == p
  {
    (Max(TankSize, Min(ScreenWidth - TankSize, p.0)), Max(TankSize, Min(ScreenHeight - TankSize, p.1)))
  }

  /** `t` stands where one `move` by `step` from `(ox, oy)` leaves it, or still at
      `(ox, oy)` when no step was taken. */
  ghost predicate MovedBy(t: Tank, ox: int, oy: int, step: Option<(int, int)>)
    reads t`x, t`y, t`speed
  {
    match step
    case None => t.x == ox && t.y == oy
    case Some(c) => t.x == AxisStep(ox, c.0 * t.speed, ScreenWidth - t.size)
                    && t.y == AxisStep(oy, c.1 * t.speed, ScreenHeight - t.size)
  }

  /** Where one `move_towards` leaves a tank standing at `(x, y)` with the given speed
      and size: moved by the step `Steer` picks (or still, when it picks none), and
      facing the way `Steer` ends. */
  ghost function Landing(x: int, y: int, speed: int, size: int, dx: int, dy: int,
                         free: set<(int, int)>, facing: Direction): (int, int, Direction)
  {
    var r := Steer(dx, dy, free, facing);
    match r.0
    case None => (x, y, r.1)
    case Some(c) => (AxisStep(x, c.0 * speed, ScreenWidth - size), AxisStep(y, c.1 * speed, ScreenHeight - size), r.1)
  }

  /** The tanks `update_ai` drives: living enemies. */
  predicate Hunts(t: Tank)
    reads t`isAlive
  {
    t.kind != Player && t.isAlive
  }

  /** After the first `i` tanks of the sweep: `seen` holds just the hunted tanks met so
      far, and, when no tank repeats, none of those still to come. */
  ghost predicate Covered(ts: seq<Tank>, hunted: set<Tank>, seen: set<Tank>, i: int, distinct: bool) {
    && seen <= hunted
    && (forall k :: 0 <= k < i && k < |ts| && ts[k] in hunted ==> ts[k] in seen)
    && (distinct ==> forall k :: 0 <= i <= k < |ts| ==> ts[k] !in seen)
  }

  /** The decision time `update_tank_ai` leaves for `t`, from the states `m` it
      starts from: `now` once more than a second has passed, else the old one (a new
      state starts from 0). */
  function DecisionTimeAfter(m: map<Tank, AiState>, t: Tank, now: int): int {
    var last := if t in m then m[t].lastDecisionTime else 0;
    if now - last > DecisionGap then now else last
  }

  /** Two updates of the same key are one update. */
  lemma UpdateTwice<K, V>(m0: map<K, V>, m1: map<K, V>, m2: map<K, V>, k: K, v: V)
    requires m1 == m0[k := v] && k in m2 && m2 == m1[k := m2[k]]
    ensures m2 == m0[k := m2[k]]
  {
  }

  class AdvancedAI {
    const game: Game
    const vision: VisionSystem
    var aiStates: map<Tank, AiState>

    constructor (g: Game, v: VisionSystem)
      ensures game == g && vision == v && aiStates == map[]
    {
      game := g;
      vision := v;
      aiStates := map[];
    }

    /** Every recorded state keeps the bounds of `Sane`. */
    ghost predicate Valid()
      reads this
    {
      forall t :: t in aiStates ==> Sane(aiStates[t])
    }

    /** `can_see_target`: the target's centre is in `t`'s vision. */
    predicate CanSeeTarget(t: Tank, target: Tank)
      reads vision, target`x, target`y
    {
      vision.IsInVision(t, target.x + target.size / 2, target.y + target.size / 2)
    }

    /** The living player `make_ai_decision` finds and `t` can see, if any. */
    function Spotted(t: Tank): (r: Option<Tank>)
      reads game, game.tanks, vision
      ensures r.Some? <==> FirstAlivePlayer(game.tanks).Some? && CanSeeTarget(t, FirstAlivePlayer(game.tanks).value)
      ensures r.Some? ==> r == FirstAlivePlayer(game.tanks)
    {
      var p := FirstAlivePlayer(game.tanks);
      if p.Some? && CanSeeTarget(t, p.value) then p else None
    }

    /** The state `t` has after the bookkeeping half of `update_tank_ai`, from the
        current states, positions and vision. */
    function PreparedFor(t: Tank, now: int, dr: Draws): AiState
      reads this, t, game, game.tanks, vision
    {
      var st := if t in aiStates then aiStates[t] else NewState(dr.initTarget);
      Prepared(st, now, t.kind == EnemyCommander, (t.x, t.y), Spotted(t), dr.decideTarget)
    }

    /** `find_player_tank`: the first living player tank in list order. */
    method FindPlayerTank() returns (p: Option<Tank>)
      ensures p == FirstAlivePlayer(game.tanks)
    {
      var i := 0;
      while i < |game.tanks|
        invariant 0 <= i <= |game.tanks|
        invariant FirstAlivePlayer(game.tanks) == FirstAlivePlayer(game.tanks[i..])
      {
        assert game.tanks[i..][1..] == game.tanks[i + 1..];
        var other := game.tanks[i];
        if other.kind == Player && other.isAlive {
          return Some(other);
        }
        i := i + 1;
      }
      return None;
    }

    /** The first loop of `move_towards`: turn to each non-null candidate, then move by
        it if the collision check allows; the outcome is `TryPreferred` over the steps
        that were free at the start. */
    method PreferredSteps(t: Tank, moves: seq<(int, int)>) returns (moved: bool)
      requires forall k :: 0 <= k < |moves| ==> moves[k] == (0, 0) || moves[k] in Fallback
      modifies t`x, t`y, t`direction
      ensures var r := TryPreferred(moves, old(FreeSteps(t, game.walls, game.tanks)), old(t.direction));
              && moved == r.0.Some? && t.direction == r.1
              && MovedBy(t, old(t.x), old(t.y), r.0)
      ensures !moved ==> FreeSteps(t, game.walls, game.tanks) == old(FreeSteps(t, game.walls, game.tanks))
      ensures old(t.InBounds()) ==> t.InBounds()
    {
      ghost var free := FreeSteps(t, game.walls, game.tanks);
      ghost var goal := TryPreferred(moves, free, t.direction);
      var i := 0;
      while i < |moves|
        invariant 0 <= i <= |moves|
        invariant t.x == old(t.x) && t.y == old(t.y)
        invariant free == FreeSteps(t, game.walls, game.tanks)
        invariant goal == TryPreferred(moves[i..], free, t.direction)
      {
        assert moves[i..][1..] == moves[i + 1..];
        var c := moves[i];
        if c != (0, 0) {
          t.direction := Facing(c);
          var blocked := CheckTankWallCollision(game, t, c.0, c.1);
          assert c in free <==> !blocked;
          if !blocked {
            t.Move(c.0, c.1);
            return true;
          }
        }
        i := i + 1;
      }
      return false;
    }

    /** The second loop of `move_towards`: the first unit step the collision check
        allows, in the fixed order, turning only to the step taken. */
    method FallbackSteps(t: Tank)
      modifies t`x, t`y, t`direction
      ensures var r := TryFallback(Fallback, old(FreeSteps(t, game.walls, game.tanks)), old(t.direction));
              && t.direction == r.1
              && MovedBy(t, old(t.x), old(t.y), r.0)
      ensures old(t.InBounds()) ==> t.InBounds()
    {
      ghost var free := FreeSteps(t, game.walls, game.tanks);
      ghost var goal := TryFallback(Fallback, free, t.direction);
      var all := Fallback;
      var i := 0;
      while i < |all|
        invariant 0 <= i <= |all|
        invariant t.x == old(t.x) && t.y == old(t.y) && t.direction == old(t.direction)
        invariant free == FreeSteps(t, game.walls, game.tanks)
        invariant goal == TryFallback(all[i..], free, t.direction)
      {
        assert all[i..][1..] == all[i + 1..];
        var c := all[i];
        assert c in Fallback;
        var blocked := CheckTankWallCollision(game, t, c.0, c.1);
        assert c in free <==> !blocked;
        if !blocked {
          t.direction := Facing(c);
          t.Move(c.0, c.1);
          return;
        }
        i := i + 1;
      }
    }

    /** `move_towards`: at most one `move`, by the step `Steer` chooses from the steps
        that were free when the call began; the facing ends as `Steer` says. That is,
        the tank lands where `Landing` puts it. */
    method MoveTowards(t: Tank, tx: int, ty: int)
      modifies t`x, t`y, t`direction
      ensures (t.x, t.y, t.direction) == Landing(old(t.x), old(t.y), t.speed, t.size, tx - old(t.x), ty - old(t.y),
                                                 old(FreeSteps(t, game.walls, game.tanks)), old(t.direction))
      ensures old(t.InBounds()) ==> t.InBounds()
    {
      var dx, dy := tx - t.x, ty - t.y;
      if Abs(dx) <= 5 && Abs(dy) <= 5 {
        return;
      }
      ghost var free := FreeSteps(t, game.walls, game.tanks);
      var moves := Preferred(dx, dy);
      SteerSplit(dx, dy, free, t.direction);
      var moved := PreferredSteps(t, moves);
      if !moved {
        FallbackSteps(t);
      }
    }

    /** `make_ai_decision`: attack a living player `t` can see; otherwise a commander
        defends and any other tank patrols, taking a new patrol target once within 20
        units of the old one. */
    method MakeAiDecision(t: Tank, dr: Draws)
      requires t in aiStates
      modifies this`aiStates
      ensures old(Valid()) && Drawn(dr) ==> Valid()
      ensures t in aiStates
      ensures aiStates == old(aiStates)[t := Decide(old(aiStates[t]), t.kind == EnemyCommander, (t.x, t.y), Spotted(t), dr.decideTarget)]
    {
      var p := FindPlayerTank();
      var st := aiStates[t];
      if p.Some? && CanSeeTarget(t, p.value) {
        st := st.(mode := Attack, target := p);
      } else if t.kind == EnemyCommander {
        st := st.(mode := Defend);
      } else {
        st := st.(mode := Patrol);
        if Dist2(t.x - st.patrolTarget.0, t.y - st.patrolTarget.1) < ReachRadius * ReachRadius {
          st := st.(patrolTarget := dr.decideTarget);
        }
      }
      aiStates := aiStates[t := st];
    }

    /** `execute_patrol`: head for the patrol target, then book the progress. */
    method ExecutePatrol(t: Tank, dr: Draws)
      requires t in aiStates
      modifies this`aiStates, t`x, t`y, t`direction
      ensures var st := old(aiStates[t]);
              var before := Dist2(old(t.x) - st.patrolTarget.0, old(t.y) - st.patrolTarget.1);
              var after := Dist2(t.x - st.patrolTarget.0, t.y - st.patrolTarget.1);
              aiStates == old(aiStates)[t := Bookkeep(st, after < before, after < ReachRadius * ReachRadius, dr)]
      ensures old(aiStates[t].stuckCounter) >= 0 ==> 0 <= aiStates[t].stuckCounter <= StuckLimit
      ensures dr.turn.Some? ==> t.direction == dr.turn.value
      ensures old(t.InBounds()) ==> t.InBounds()
      ensures aiStates.Keys == old(aiStates.Keys) && aiStates[t].lastDecisionTime == old(aiStates[t].lastDecisionTime)
      ensures forall u :: u in aiStates && u != t ==> aiStates[u] == old(aiStates[u])
      ensures old(Valid()) && Drawn(dr) ==> Valid()
    {
      var goal := aiStates[t].patrolTarget;
      var before, after := MeasuredMove(t, goal);
      BookPatrol(t, after < before, after < ReachRadius * ReachRadius, dr);
    }

    /** The moving step of `execute_patrol`: the squared distances to `goal` before and
        after one `move_towards` it. */
    method MeasuredMove(t: Tank, goal: (int, int)) returns (before: int, after: int)
      modifies t`x, t`y, t`direction
      ensures before == Dist2(old(t.x) - goal.0, old(t.y) - goal.1)
      ensures after == Dist2(t.x - goal.0, t.y - goal.1)
      ensures (t.x, t.y, t.direction) == Landing(old(t.x), old(t.y), t.speed, t.size, goal.0 - old(t.x), goal.1 - old(t.y),
                                                 old(FreeSteps(t, game.walls, game.tanks)), old(t.direction))
      ensures old(t.InBounds()) ==> t.InBounds()
    {
      before := Dist2(t.x - goal.0, t.y - goal.1);
      MoveTowards(t, goal.0, goal.1);
      after := Dist2(t.x - goal.0, t.y - goal.1);
    }

    /** The bookkeeping half of `execute_patrol`, given whether the move got closer to
        the target and whether it is now within reach; then the random turn. */
    method BookPatrol(t: Tank, progressed: bool, reached: bool, dr: Draws)
      requires t in aiStates
      modifies this`aiStates, t`direction
      ensures aiStates == old(aiStates)[t := Bookkeep(old(aiStates[t]), progressed, reached, dr)]
      ensures t.direction == if dr.turn.Some? then dr.turn.value else old(t.direction)
      ensures old(Valid()) && Drawn(dr) ==> Valid()
    {
      var st := aiStates[t];
      var stuck, target := st.stuckCounter, st.patrolTarget;
      if !progressed {
        stuck := stuck + 1;
        if stuck > StuckLimit {
          target := dr.stuckTarget;
          stuck := 0;
        }
      } else {
        stuck := 0;
      }
      if reached {
        target := dr.reachedTarget;
        stuck := 0;
      }
      if dr.turn.Some? {
        t.direction := dr.turn.value;
      }
      aiStates := aiStates[t := st.(patrolTarget := target, stuckCounter := stuck)];
    }

    /** `execute_attack`: with no living target fall back to patrol; otherwise face the
        target, move toward it, and fire when it is within 200 units and the cooldown is
        over, restarting the cooldown only if the tank's own cooldown let the shot out. */
    method ExecuteAttack(t: Tank, now: int)
      requires t in aiStates
      modifies this`aiStates, t`x, t`y, t`direction, t`lastShotTime, game`bullets
      ensures var st, aim := old(aiStates[t]), old(LiveTarget(aiStates[t]));
              aim.None? ==>
                aiStates == old(aiStates)[t := st.(mode := Patrol)] && game.bullets == old(game.bullets)
                && t.x == old(t.x) && t.y == old(t.y) && t.direction == old(t.direction)
      ensures var st, aim := old(aiStates[t]), old(LiveTarget(aiStates[t]));
              aim.Some? ==>
                var fire := Dist2(aim.value.0 - old(t.x), aim.value.1 - old(t.y)) < ShootRange * ShootRange
                            && st.attackCooldown == 0 && CanShoot(now, old(t.lastShotTime), t.shotCooldown);
                && (fire ==> && |game.bullets| == |old(game.bullets)| + 1
                             && game.bullets[..|old(game.bullets)|] == old(game.bullets)
                             && fresh(game.bullets[|old(game.bullets)|])
                             && game.bullets[|old(game.bullets)|].owner == t
                             && aiStates == old(aiStates)[t := st.(attackCooldown := AttackCooldown)])
                && (!fire ==> game.bullets == old(game.bullets) && aiStates == old(aiStates))
      ensures old(t.InBounds()) ==> t.InBounds()
      ensures aiStates.Keys == old(aiStates.Keys) && aiStates[t].lastDecisionTime == old(aiStates[t].lastDecisionTime)
      ensures forall u :: u in aiStates && u != t ==> aiStates[u] == old(aiStates[u])
      ensures old(Valid()) ==> Valid()
      ensures game.bullets == old(game.bullets)
              || (|game.bullets| == |old(game.bullets)| + 1 && game.bullets[..|old(game.bullets)|] == old(game.bullets)
                  && fresh(game.bullets[|old(game.bullets)|]))
    {
      var st := aiStates[t];
      if st.target.None? || !st.target.value.isAlive {
        aiStates := aiStates[t := st.(mode := Patrol)];
        return;
      }
      var target := st.target.value;
      var dx, dy := target.x - t.x, target.y - t.y;
      var inRange := Dist2(dx, dy) < ShootRange * ShootRange;
      Approach(t, target.x, target.y);
      AttackFire(t, now, inRange);
    }

    /** The moving step of `execute_attack`: face the target along the larger offset,
        then `move_towards` it from that facing. */
    method Approach(t: Tank, tx: int, ty: int)
      modifies t`x, t`y, t`direction
      ensures (t.x, t.y, t.direction) == Landing(old(t.x), old(t.y), t.speed, t.size, tx - old(t.x), ty - old(t.y),
                                                 old(FreeSteps(t, game.walls, game.tanks)), AttackFacing(tx - old(t.x), ty - old(t.y)))
      ensures old(t.InBounds()) ==> t.InBounds()
    {
      ghost var free := FreeSteps(t, game.walls, game.tanks);
      t.direction := AttackFacing(tx - t.x, ty - t.y);
      assert FreeSteps(t, game.walls, game.tanks) == free;
      MoveTowards(t, tx, ty);
    }

    /** The firing step of `execute_attack`: in range and off cooldown, `t` shoots; a
        bullet the tank's own cooldown lets out joins the list and restarts the AI
        cooldown. */
    method AttackFire(t: Tank, now: int, inRange: bool)
      requires t in aiStates
      modifies this`aiStates, t`lastShotTime, game`bullets
      ensures var st := old(aiStates[t]);
              var fire := inRange && st.attackCooldown == 0 && CanShoot(now, old(t.lastShotTime), t.shotCooldown);
              && (fire ==> && |game.bullets| == |old(game.bullets)| + 1
                           && game.bullets[..|old(game.bullets)|] == old(game.bullets)
                           && fresh(game.bullets[|old(game.bullets)|])
                           && game.bullets[|old(game.bullets)|].owner == t
                           && aiStates == old(aiStates)[t := st.(attackCooldown := AttackCooldown)])
              && (!fire ==> game.bullets == old(game.bullets) && aiStates == old(aiStates))
      ensures old(Valid()) ==> Valid()
    {
      var st := aiStates[t];
      if inRange && st.attackCooldown == 0 {
        var b := t.Shoot(now);
        if b.Some? {
          game.bullets := game.bullets + [b.value];
          aiStates := aiStates[t := st.(attackCooldown := AttackCooldown)];
        }
      }
    }

    /** `execute_defend`: without a base fall back to patrol; otherwise head for the
        clamped ring point around the base and switch to attack on seeing a living player. */
    method ExecuteDefend(t: Tank, dr: Draws)
      requires t in aiStates
      modifies this`aiStates, t`x, t`y, t`direction
      ensures var st := old(aiStates[t]);
              game.base.None? ==> aiStates == old(aiStates)[t := st.(mode := Patrol)]
                                  && t.x == old(t.x) && t.y == old(t.y) && t.direction == old(t.direction)
      ensures var st, seen := old(aiStates[t]), Spotted(t);
              game.base.Some? ==>
                aiStates == old(aiStates)[t := if seen.Some? then st.(mode := Attack, target := seen) else st]
      ensures old(t.InBounds()) ==> t.InBounds()
      ensures aiStates.Keys == old(aiStates.Keys) && aiStates[t].lastDecisionTime == old(aiStates[t].lastDecisionTime)
      ensures forall u :: u in aiStates && u != t ==> aiStates[u] == old(aiStates[u])
      ensures old(Valid()) && Drawn(dr) ==> Valid()
    {
      if game.base.None? {
        aiStates := aiStates[t := aiStates[t].(mode := Patrol)];
        return;
      }
      var base := game.base.value;
      var cx, cy := base.x + WallSize / 2, base.y + WallSize / 2;
      var spot := ClampDefence((cx + dr.ring.0, cy + dr.ring.1));
      MoveTowards(t, spot.0, spot.1);
      WatchForPlayer(t);
    }

    /** The end of `execute_defend`: a living player `t` can see turns the state to
        attack on that player; otherwise the state stays. */
    method WatchForPlayer(t: Tank)
      requires t in aiStates
      modifies this`aiStates
      ensures var st, seen := old(aiStates[t]), Spotted(t);
              aiStates == old(aiStates)[t := if seen.Some? then st.(mode := Attack, target := seen) else st]
      ensures old(Valid()) ==> Valid()
    {
      var p := FindPlayerTank();
      if p.Some? && CanSeeTarget(t, p.value) {
        aiStates := aiStates[t := aiStates[t].(mode := Attack, target := p)];
      }
    }

    /** The bookkeeping half of `update_tank_ai`: create the state on first sight, count
        the cooldown down, and re-decide when more than a second has passed since the
        last decision. */
    method Prepare(t: Tank, now: int, dr: Draws) returns (ghost mid: AiState)
      requires Valid() && Drawn(dr)
      modifies this`aiStates
      ensures Valid() && t in aiStates && aiStates.Keys == old(aiStates.Keys) + {t}
      ensures mid == old(PreparedFor(t, now, dr)) && aiStates == old(aiStates)[t := mid]
    {
      mid := PreparedFor(t, now, dr);
      Cool(t, dr);
      if now - aiStates[t].lastDecisionTime > DecisionGap {
        ghost var cooled := aiStates;
        Redecide(t, now, dr);
        UpdateTwice(old(aiStates), cooled, aiStates, t, cooled[t]);
      }
    }

    /** The start of `update_tank_ai`: the state is created on first sight and its
        cooldown counts down by one. */
    method Cool(t: Tank, dr: Draws)
      requires Valid() && Drawn(dr)
      modifies this`aiStates
      ensures Valid() && t in aiStates
      ensures aiStates == old(aiStates)[t := Cooled(if t in old(aiStates) then old(aiStates[t]) else NewState(dr.initTarget))]
    {
      var st := if t in aiStates then aiStates[t] else NewState(dr.initTarget);
      if st.attackCooldown > 0 {
        st := st.(attackCooldown := st.attackCooldown - 1);
      }
      aiStates := aiStates[t := st];
    }

    /** The decision step of `update_tank_ai`: `make_ai_decision`, then the decision
        time is set to `now`; the cooldown and every other tank's state stay. */
    method Redecide(t: Tank, now: int, dr: Draws)
      requires Valid() && Drawn(dr) && t in aiStates
      modifies this`aiStates
      ensures Valid() && t in aiStates
      ensures aiStates == old(aiStates)[t := Decide(old(aiStates[t]), t.kind == EnemyCommander, (t.x, t.y), Spotted(t), dr.decideTarget)
                                               .(lastDecisionTime := now)]
    {
      MakeAiDecision(t, dr);
      aiStates := aiStates[t := aiStates[t].(lastDecisionTime := now)];
    }

    /** The position of `st`'s target while it is alive; `execute_attack` falls back to
        patrol without one. */
    function LiveTarget(st: AiState): Option<(int, int)>
      reads if st.target.Some? then {st.target.value} else {}
    {
      if st.target.Some? && st.target.value.isAlive then Some((st.target.value.x, st.target.value.y)) else None
    }

    /** What the routine of the mode in state `mid` did to `t`, to its state and to the
        bullet list, given `t`'s position, facing and last shot, the bullet list and the
        live target's position from before it ran. */
    predicate Behaved(t: Tank, now: int, dr: Draws, mid: AiState,
                      x0: int, y0: int, dir0: Direction, shot0: int, bullets0: seq<Bullet>, aim: Option<(int, int)>)
      reads this, t, game, game.tanks, vision
    {
      && t in aiStates
      && (mid.mode == Patrol ==>
            var before := Dist2(x0 - mid.patrolTarget.0, y0 - mid.patrolTarget.1);
            var after := Dist2(t.x - mid.patrolTarget.0, t.y - mid.patrolTarget.1);
            aiStates[t] == Bookkeep(mid, after < before, after < ReachRadius * ReachRadius, dr)
            && game.bullets == bullets0 && t.lastShotTime == shot0)
      && (mid.mode == Attack && aim.None? ==>
            aiStates[t] == mid.(mode := Patrol) && game.bullets == bullets0
            && t.x == x0 && t.y == y0 && t.direction == dir0)
      && (mid.mode == Attack && aim.Some? ==>
            var fire := Dist2(aim.value.0 - x0, aim.value.1 - y0) < ShootRange * ShootRange && mid.attackCooldown == 0
                        && CanShoot(now, shot0, t.shotCooldown);
            && (fire ==> |game.bullets| == |bullets0| + 1 && game.bullets[|bullets0|].owner == t
                         && aiStates[t] == mid.(attackCooldown := AttackCooldown))
            && (!fire ==> game.bullets == bullets0 && aiStates[t] == mid))
      && (mid.mode == Defend ==>
            && game.bullets == bullets0 && t.lastShotTime == shot0
            && (game.base.None? ==> aiStates[t] == mid.(mode := Patrol) && t.x == x0 && t.y == y0 && t.direction == dir0)
            && (game.base.Some? ==> aiStates[t] == if Spotted(t).Some? then mid.(mode := Attack, target := Spotted(t)) else mid))
    }

    /** `update_tank_ai`: the bookkeeping (`mid` is the state it leaves), then the
        routine of `mid`'s mode: `execute_patrol`, `execute_attack` or `execute_defend`.
        Only `t`'s state changes, the state bounds hold throughout, and only an attack
        appends a bullet. */
    method UpdateTankAi(t: Tank, now: int, dr: Draws) returns (ghost mid: AiState)
      requires Valid() && Drawn(dr)
      modifies this`aiStates, t`x, t`y, t`direction, t`lastShotTime, game`bullets
      ensures Valid() && t in aiStates && aiStates == old(aiStates)[t := aiStates[t]]
      ensures mid == old(PreparedFor(t, now, dr))
      ensures aiStates[t].lastDecisionTime == DecisionTimeAfter(old(aiStates), t, now)
      ensures Behaved(t, now, dr, mid, old(t.x), old(t.y), old(t.direction), old(t.lastShotTime), old(game.bullets), old(LiveTarget(mid)))
      ensures old(t.InBounds()) ==> t.InBounds()
      ensures game.bullets == old(game.bullets)
              || (|game.bullets| == |old(game.bullets)| + 1 && game.bullets[..|old(game.bullets)|] == old(game.bullets)
                  && fresh(game.bullets[|old(game.bullets)|]) && game.bullets[|old(game.bullets)|].owner == t)
    {
      mid := Prepare(t, now, dr);
      ghost var prepared := aiStates;
      Execute(t, now, dr, mid, old(t.x), old(t.y), old(t.direction), old(t.lastShotTime), old(game.bullets), old(LiveTarget(mid)));
      UpdateTwice(old(aiStates), prepared, aiStates, t, mid);
    }

    /** The behaviour half of `update_tank_ai`: the routine of the mode in `t`'s
        state `mid`; the ghost parameters name the values it starts from. */
    method Execute(t: Tank, now: int, dr: Draws, ghost mid: AiState, ghost x0: int, ghost y0: int, ghost dir0: Direction,
                   ghost shot0: int, ghost bullets0: seq<Bullet>, ghost aim: Option<(int, int)>)
      requires Valid() && Drawn(dr) && t in aiStates && aiStates[t] == mid
      requires x0 == t.x && y0 == t.y && dir0 == t.direction && shot0 == t.lastShotTime
      requires bullets0 == game.bullets && aim == LiveTarget(mid)
      modifies this`aiStates, t`x, t`y, t`direction, t`lastShotTime, game`bullets
      ensures Valid() && t in aiStates && aiStates == old(aiStates)[t := aiStates[t]]
      ensures Behaved(t, now, dr, mid, x0, y0, dir0, shot0, bullets0, aim)
      ensures old(t.InBounds()) ==> t.InBounds()
      ensures game.bullets == old(game.bullets)
              || (|game.bullets| == |old(game.bullets)| + 1 && game.bullets[..|old(game.bullets)|] == old(game.bullets)
                  && fresh(game.bullets[|old(game.bullets)|]) && game.bullets[|old(game.bullets)|].owner == t)
    {
      match aiStates[t].mode {
        case Patrol => PatrolMode(t, now, dr, mid, x0, y0, dir0, shot0, bullets0, aim);
        case Attack => AttackMode(t, now, dr, mid, x0, y0, dir0, shot0, bullets0, aim);
        case Defend => DefendMode(t, now, dr, mid, x0, y0, dir0, shot0, bullets0, aim);
      }
    }

    /** `Execute` in patrol mode: `execute_patrol`. */
    method PatrolMode(t: Tank, now: int, dr: Draws, ghost mid: AiState, ghost x0: int, ghost y0: int, ghost dir0: Direction,
                      ghost shot0: int, ghost bullets0: seq<Bullet>, ghost aim: Option<(int, int)>)
      requires Valid() && Drawn(dr) && t in aiStates && aiStates[t] == mid && mid.mode == Patrol
      requires x0 == t.x && y0 == t.y && dir0 == t.direction && shot0 == t.lastShotTime
      requires bullets0 == game.bullets && aim == LiveTarget(mid)
      modifies this`aiStates, t`x, t`y, t`direction
      ensures Valid() && t in aiStates && aiStates == old(aiStates)[t := aiStates[t]]
      ensures Behaved(t, now, dr, mid, x0, y0, dir0, shot0, bullets0, aim)
      ensures old(t.InBounds()) ==> t.InBounds()
    {
      ExecutePatrol(t, dr);
    }

    /** `Execute` in attack mode: `execute_attack`. */
    method AttackMode(t: Tank, now: int, dr: Draws, ghost mid: AiState, ghost x0: int, ghost y0: int, ghost dir0: Direction,
                      ghost shot0: int, ghost bullets0: seq<Bullet>, ghost aim: Option<(int, int)>)
      requires Valid() && Drawn(dr) && t in aiStates && aiStates[t] == mid && mid.mode == Attack
      requires x0 == t.x && y0 == t.y && dir0 == t.direction && shot0 == t.lastShotTime
      requires bullets0 == game.bullets && aim == LiveTarget(mid)
      modifies this`aiStates, t`x, t`y, t`direction, t`lastShotTime, game`bullets
      ensures Valid() && t in aiStates && aiStates == old(aiStates)[t := aiStates[t]]
      ensures Behaved(t, now, dr, mid, x0, y0, dir0, shot0, bullets0, aim)
      ensures old(t.InBounds()) ==> t.InBounds()
      ensures game.bullets == old(game.bullets)
              || (|game.bullets| == |old(game.bullets)| + 1 && game.bullets[..|old(game.bullets)|] == old(game.bullets)
                  && fresh(game.bullets[|old(game.bullets)|]) && game.bullets[|old(game.bullets)|].owner == t)
    {
      ExecuteAttack(t, now);
    }

    /** `Execute` in defend mode: `execute_defend`. */
    method DefendMode(t: Tank, now: int, dr: Draws, ghost mid: AiState, ghost x0: int, ghost y0: int, ghost dir0: Direction,
                      ghost shot0: int, ghost bullets0: seq<Bullet>, ghost aim: Option<(int, int)>)
      requires Valid() && Drawn(dr) && t in aiStates && aiStates[t] == mid && mid.mode == Defend
      requires x0 == t.x && y0 == t.y && dir0 == t.direction && shot0 == t.lastShotTime
      requires bullets0 == game.bullets && aim == LiveTarget(mid)
      modifies this`aiStates, t`x, t`y, t`direction
      ensures Valid() && t in aiStates && aiStates == old(aiStates)[t := aiStates[t]]
      ensures Behaved(t, now, dr, mid, x0, y0, dir0, shot0, bullets0, aim)
      ensures old(t.InBounds()) ==> t.InBounds()
    {
      ExecuteDefend(t, dr);
    }

    /** `update_ai`: every living enemy tank, in list order, with its own draws. Player
        and dead tanks and their states are left alone; each living enemy is updated
        once, so its decision time follows the one-second gate from its old state; the
        only bullets added are new ones fired by living enemies. */
    method UpdateAi(now: int, draws: seq<Draws>)
      requires Valid() && |draws| == |game.tanks| && forall k :: 0 <= k < |draws| ==> Drawn(draws[k])
      modifies this`aiStates, game.tanks`x, game.tanks`y, game.tanks`direction, game.tanks`lastShotTime, game`bullets
      ensures Valid() && (old(game.Valid()) ==> game.Valid())
      ensures forall t :: t in aiStates <==> t in old(aiStates) || (t in game.tanks && Hunts(t))
      ensures forall u :: u in old(aiStates) && !(u in game.tanks && Hunts(u)) ==> aiStates[u] == old(aiStates[u])
      ensures forall u :: u in game.tanks && !Hunts(u) ==> u.x == old(u.x) && u.y == old(u.y) && u.direction == old(u.direction) && u.lastShotTime == old(u.lastShotTime)
      ensures old(game.Valid()) ==>
                forall u :: u in game.tanks && Hunts(u) ==> aiStates[u].lastDecisionTime == DecisionTimeAfter(old(aiStates), u, now)
      ensures old(game.bullets) <= game.bullets
      ensures forall k :: |old(game.bullets)| <= k < |game.bullets| ==> game.bullets[k].owner in game.tanks && Hunts(game.bullets[k].owner)
      ensures fresh(set b | b in game.bullets && b !in old(game.bullets))
    {
      ghost var ts, m0, b0, distinct := game.tanks, aiStates, game.bullets, game.Valid();
      ghost var hunted := set u | u in ts && Hunts(u);
      if distinct {
        DistinctIndex(ts);
      }
      ghost var seen: set<Tank> := {};
      var i := 0;
      while i < |game.tanks|
        invariant 0 <= i <= |ts| && Valid() && game.tanks == ts
        invariant distinct ==> game.Valid()
        invariant Covered(ts, hunted, seen, i, distinct)
        invariant fresh(set b | b in game.bullets && b !in b0)
        invariant aiStates.Keys == m0.Keys + seen
        invariant forall u :: u in m0 && u !in seen ==> aiStates[u] == m0[u]
        invariant forall u :: u in ts && u !in hunted ==> u.x == old(u.x) && u.y == old(u.y) && u.direction == old(u.direction) && u.lastShotTime == old(u.lastShotTime)
        invariant distinct ==> forall u :: u in seen ==> aiStates[u].lastDecisionTime == DecisionTimeAfter(m0, u, now)
        invariant b0 <= game.bullets
        invariant forall k :: |b0| <= k < |game.bullets| ==> game.bullets[k].owner in seen
      {
        seen := HuntAt(game.tanks[i], i, now, draws[i], ts, hunted, seen, m0, b0, distinct);
        i := i + 1;
      }
      assert seen == hunted;
      assert forall u :: u in ts ==> (u in hunted <==> Hunts(u));
    }

    /** One turn of the `update_ai` loop: the tank at index `i` is updated when it is a
        living enemy, and the facts the sweep keeps about its first `i` tanks extend to
        the first `i + 1`. */
    method HuntAt(t: Tank, i: int, now: int, dr: Draws, ghost ts: seq<Tank>, ghost hunted: set<Tank>, ghost seen: set<Tank>,
                  ghost m0: map<Tank, AiState>, ghost b0: seq<Bullet>, ghost distinct: bool) returns (ghost seen': set<Tank>)
      requires 0 <= i < |ts| && t == ts[i] && Valid() && Drawn(dr) && game.tanks == ts
      requires distinct ==> game.Valid() && forall j, k :: 0 <= j < k < |ts| ==> ts[j] != ts[k]
      requires t in hunted <==> Hunts(t)
      requires Covered(ts, hunted, seen, i, distinct)
      requires aiStates.Keys == m0.Keys + seen
      requires forall u :: u in m0 && u !in seen ==> aiStates[u] == m0[u]
      requires distinct ==> forall u :: u in seen ==> aiStates[u].lastDecisionTime == DecisionTimeAfter(m0, u, now)
      requires b0 <= game.bullets
      requires forall k :: |b0| <= k < |game.bullets| ==> game.bullets[k].owner in seen
      modifies this`aiStates, t`x, t`y, t`direction, t`lastShotTime, game`bullets
      ensures Valid() && game.tanks == ts && (distinct ==> game.Valid())
      ensures Covered(ts, hunted, seen', i + 1, distinct)
      ensures aiStates.Keys == m0.Keys + seen'
      ensures forall u :: u in m0 && u !in seen' ==> aiStates[u] == m0[u]
      ensures distinct ==> forall u :: u in seen' ==> aiStates[u].lastDecisionTime == DecisionTimeAfter(m0, u, now)
      ensures b0 <= game.bullets
      ensures forall k :: |b0| <= k < |game.bullets| ==> game.bullets[k].owner in seen'
      ensures t !in hunted ==> unchanged(t) && game.bullets == old(game.bullets)
      ensures fresh(set b | b in game.bullets && b !in old(game.bullets))
    {
      seen' := seen;
      if t.kind != Player && t.isAlive {
        HuntOne(t, now, dr);
        seen' := seen + {t};
      }
    }

    /** One step of `update_ai`: `update_tank_ai` on the living enemy `t`. */
    method HuntOne(t: Tank, now: int, dr: Draws)
      requires Valid() && Drawn(dr) && Hunts(t)
      modifies this`aiStates, t`x, t`y, t`direction, t`lastShotTime, game`bullets
      ensures Valid() && aiStates.Keys == old(aiStates).Keys + {t}
      ensures forall u :: u in old(aiStates) && u != t ==> aiStates[u] == old(aiStates)[u]
      ensures aiStates[t].lastDecisionTime == DecisionTimeAfter(old(aiStates), t, now)
      ensures old(game.bullets) <= game.bullets
      ensures forall k :: |old(game.bullets)| <= k < |game.bullets| ==> game.bullets[k].owner == t
      ensures fresh(set b | b in game.bullets && b !in old(game.bullets))
      ensures old(game.Valid()) ==> game.Valid()
    {
      ghost var bs := game.bullets;
      var _ := UpdateTankAi(t, now, dr);
      if game.bullets != bs {
        assert game.bullets == bs + [game.bullets[|bs|]];
        if old(game.Valid()) {
          DistinctSnoc(bs, game.bullets[|bs|]);
        }
      }
    }
  }
}
