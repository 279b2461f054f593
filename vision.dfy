/** The vision system of vision_ai.py: each living tank sees the 20-unit grid cells of
    the points it samples ahead of itself, a sample counting only when a stepped ray
    from the tank's centre reaches it without entering a wall; the enemies pool what
    they see while a commander is alive. */
module Vision {
  import opened Common
  import opened Objects
  import opened World

  /** Visible points are reported as cells of this size. */
  const CellSize := 20
  /** Samples and ray steps are this far apart. */
  const SampleGap := 10

  type Cell = (int, int)

  /** `(int(x // 20), int(y // 20))`; Dafny's division rounds down for a positive
      divisor, like Python's `//`. */
  function CellOf(x: int, y: int): Cell {
    (x / CellSize, y / CellSize)
  }

  // ---------------------------------------------------------------------------
  // The ray march of `is_vision_blocked`

  /** The number of points the march tests: the longer axis of the ray, in tens. */
  function RaySteps(sx: int, sy: int, ex: int, ey: int): (n: nat)
    ensures n * SampleGap <= Max(Abs(ex - sx), Abs(ey - sy)) < (n + 1) * SampleGap
  {
    Max(Abs(ex - sx), Abs(ey - sy)) / SampleGap
  }

  /** Test point `i` of `n`, `start + (end - start) * i / n`, lies in wall `w`, bounds
      included. Both sides are multiplied by `n` so that the comparison is exact. */
  predicate SampleInWall(w: Wall, sx: int, sy: int, ex: int, ey: int, n: int, i: int) {
    && w.x * n <= sx * n + (ex - sx) * i <= (w.x + WallSize) * n
    && w.y * n <= sy * n + (ey - sy) * i <= (w.y + WallSize) * n
  }

  /** Some test point `i < n` of the ray lies in some wall. */
  predicate Blocked(sx: int, sy: int, ex: int, ey: int, ws: seq<Wall>) {
    var n := RaySteps(sx, sy, ex, ey);
    exists i, k :: 0 <= i < n && 0 <= k < |ws| && SampleInWall(ws[k], sx, sy, ex, ey, n, i)
  }

  /** A ray shorter than ten units is never blocked, and neither is any ray when there
      are no walls. */
  lemma ClearRays(sx: int, sy: int, ex: int, ey: int, ws: seq<Wall>)
    ensures RaySteps(sx, sy, ex, ey) == 0 ==> !Blocked(sx, sy, ex, ey, ws)
    ensures ws == [] ==> !Blocked(sx, sy, ex, ey, ws)
  {
  }

  /** Adding walls never unblocks a ray. */
  lemma {:induction false} BlockedMonotone(sx: int, sy: int, ex: int, ey: int, ws: seq<Wall>, more: seq<Wall>)
    requires forall k :: 0 <= k < |ws| ==> ws[k] in more
    requires Blocked(sx, sy, ex, ey, ws)
    ensures Blocked(sx, sy, ex, ey, more)
  {
    var n := RaySteps(sx, sy, ex, ey);
    var i, k :| 0 <= i < n && 0 <= k < |ws| && SampleInWall(ws[k], sx, sy, ex, ey, n, i);
    var k' :| 0 <= k' < |more| && more[k'] == ws[k];
    assert SampleInWall(more[k'], sx, sy, ex, ey, n, i);
  }

  /** The first test point is the start itself: a ray of ten units or more that starts
      inside a wall is blocked. */
  lemma {:induction false} StartInWallBlocks(sx: int, sy: int, ex: int, ey: int, ws: seq<Wall>, k: nat)
    requires k < |ws| && RaySteps(sx, sy, ex, ey) > 0
    requires ws[k].x <= sx <= ws[k].x + WallSize && ws[k].y <= sy <= ws[k].y + WallSize
    ensures Blocked(sx, sy, ex, ey, ws)
  {
    var n := RaySteps(sx, sy, ex, ey);
    assert ws[k].x * n <= sx * n <= (ws[k].x + WallSize) * n by {
      MulMono(ws[k].x, sx, n);
      MulMono(sx, ws[k].x + WallSize, n);
    }
    assert ws[k].y * n <= sy * n <= (ws[k].y + WallSize) * n by {
      MulMono(ws[k].y, sy, n);
      MulMono(sy, ws[k].y + WallSize, n);
    }
    assert SampleInWall(ws[k], sx, sy, ex, ey, n, 0);
  }

  lemma MulMono(a: int, b: int, n: nat)
    requires a <= b
    ensures a * n <= b * n
  {
    assert b * n - a * n == (b - a) * n;
  }

  // ---------------------------------------------------------------------------
  // The sample lattice of `calculate_vision_area`

  /** The point `d` ahead along (dx, dy) and `s` along the perpendicular (-dy, dx). */
  function SamplePoint(cx: int, cy: int, dx: int, dy: int, d: int, s: int): (int, int) {
    (cx + dx * d + (-dy) * s, cy + dy * d + dx * s)
  }

  /** The sample is on screen, bounds included, and the ray to it is clear. */
  predicate SampleSeen(cx: int, cy: int, dx: int, dy: int, d: int, s: int, ws: seq<Wall>) {
    var p := SamplePoint(cx, cy, dx, dy, d, s);
    0 <= p.0 <= ScreenWidth && 0 <= p.1 <= ScreenHeight && !Blocked(cx, cy, p.0, p.1, ws)
  }

  /** The sample at (d, s) is seen and lies in cell `c`. */
  predicate SeenIn(cx: int, cy: int, dx: int, dy: int, d: int, s: int, ws: seq<Wall>, c: Cell) {
    SampleSeen(cx, cy, dx, dy, d, s, ws) && CellOf(SamplePoint(cx, cy, dx, dy, d, s).0, SamplePoint(cx, cy, dx, dy, d, s).1) == c
  }

  /** `v` is in Python's `range(lo, hi, 10)`. */
  predicate InRange(v: int, lo: int, hi: int) {
    lo <= v < hi && (v - lo) % SampleGap == 0
  }

  /** `range(lo, hi, 10)` is `lo` followed by `range(lo + 10, hi, 10)`. */
  lemma RangeNext(v: int, lo: int, hi: int)
    ensures InRange(v, lo, hi) <==> (lo < hi && v == lo) || InRange(v, lo + SampleGap, hi)
  {
    if InRange(v, lo, hi) && v != lo {
      var q := (v - lo) / SampleGap;
      assert v - lo == SampleGap * q;
      assert v - (lo + SampleGap) == SampleGap * (q - 1);
    }
    if InRange(v, lo + SampleGap, hi) {
      var q := (v - lo - SampleGap) / SampleGap;
      assert v - lo - SampleGap == SampleGap * q;
      assert v - lo == SampleGap * (q + 1);
    }
  }

  /** The cells seen from the samples `s, s + 10, …` below `side` at distance `d`. */
  function RowFrom(cx: int, cy: int, dx: int, dy: int, d: int, s: int, side: int, ws: seq<Wall>): set<Cell>
    decreases side - s
  {
    if s >= side then {}
    else
      var p := SamplePoint(cx, cy, dx, dy, d, s);
      (if SampleSeen(cx, cy, dx, dy, d, s, ws) then {CellOf(p.0, p.1)} else {})
      + RowFrom(cx, cy, dx, dy, d, s + SampleGap, side, ws)
  }

  /** The cells seen from the rows at distances `d, d + 10, …` below `fwd`, each row
      running over `range(-side, side, 10)`. */
  function AreaFrom(cx: int, cy: int, dx: int, dy: int, d: int, fwd: int, side: int, ws: seq<Wall>): set<Cell>
    decreases fwd - d
  {
    if d >= fwd then {}
    else RowFrom(cx, cy, dx, dy, d, -side, side, ws) + AreaFrom(cx, cy, dx, dy, d + SampleGap, fwd, side, ws)
  }

  /** A cell is in a row exactly when some sample of the row is seen in it. */
  lemma {:induction false} RowSpec(cx: int, cy: int, dx: int, dy: int, d: int, s0: int, side: int, ws: seq<Wall>, c: Cell)
    ensures c in RowFrom(cx, cy, dx, dy, d, s0, side, ws) <==>
              exists s :: InRange(s, s0, side) && SeenIn(cx, cy, dx, dy, d, s, ws, c)
    decreases side - s0
  {
    if s0 < side {
      RowSpec(cx, cy, dx, dy, d, s0 + SampleGap, side, ws, c);
      if c in RowFrom(cx, cy, dx, dy, d, s0, side, ws) {
        if !SeenIn(cx, cy, dx, dy, d, s0, ws, c) {
          var s :| InRange(s, s0 + SampleGap, side) && SeenIn(cx, cy, dx, dy, d, s, ws, c);
          RangeNext(s, s0, side);
        } else {
          RangeNext(s0, s0, side);
        }
      }
      if exists s :: InRange(s, s0, side) && SeenIn(cx, cy, dx, dy, d, s, ws, c) {
        var s :| InRange(s, s0, side) && SeenIn(cx, cy, dx, dy, d, s, ws, c);
        RangeNext(s, s0, side);
      }
    }
  }

  /** A cell is in the area from distance `d0` on exactly when some sample of some row is
      seen in it. */
  lemma {:induction false} AreaSpec(cx: int, cy: int, dx: int, dy: int, d0: int, fwd: int, side: int, ws: seq<Wall>, c: Cell)
    ensures c in AreaFrom(cx, cy, dx, dy, d0, fwd, side, ws) <==>
              exists d, s :: InRange(d, d0, fwd) && InRange(s, -side, side) && SeenIn(cx, cy, dx, dy, d, s, ws, c)
    decreases fwd - d0
  {
    if d0 < fwd {
      AreaSpec(cx, cy, dx, dy, d0 + SampleGap, fwd, side, ws, c);
      RowSpec(cx, cy, dx, dy, d0, -side, side, ws, c);
      if c in AreaFrom(cx, cy, dx, dy, d0, fwd, side, ws) {
        if c in RowFrom(cx, cy, dx, dy, d0, -side, side, ws) {
          var s :| InRange(s, -side, side) && SeenIn(cx, cy, dx, dy, d0, s, ws, c);
          RangeNext(d0, d0, fwd);
        } else {
          var d, s :| InRange(d, d0 + SampleGap, fwd) && InRange(s, -side, side) && SeenIn(cx, cy, dx, dy, d, s, ws, c);
          RangeNext(d, d0, fwd);
        }
      }
      if exists d, s :: InRange(d, d0, fwd) && InRange(s, -side, side) && SeenIn(cx, cy, dx, dy, d, s, ws, c) {
        var d, s :| InRange(d, d0, fwd) && InRange(s, -side, side) && SeenIn(cx, cy, dx, dy, d, s, ws, c);
        RangeNext(d, d0, fwd);
      }
    }
  }

  /** The forward and side reach of a tank: a player sees its full vision range ahead
      and 0.7 of it to the sides, an enemy 0.8 and 0.5 of it; `int()` truncates. */
  function Reach(kind: TankType, range: int): (r: (int, int))
    ensures kind == Player ==> r.0 == range
    ensures range >= 0 ==> 0 <= r.1 <= r.0 <= range
  {
    if kind == Player then (range, TruncDiv(range * 7, 10))
    else (TruncDiv(range * 8, 10), TruncDiv(range * 5, 10))
  }

  /** The cells tank `t` sees among walls `ws`: the sample lattice around its centre,
      facing its direction. */
  function TankArea(t: Tank, ws: seq<Wall>): set<Cell>
    reads t
  {
    var r := Reach(t.kind, t.visionRange);
    AreaFrom(t.x + t.size / 2, t.y + t.size / 2, DirX(t.direction), DirY(t.direction), 0, r.0, r.1, ws)
  }

  /** Every cell a tank sees is the cell of a sample `d` ahead and `s` aside, with `d`
      in `range(0, fwd, 10)` and `s` in `range(-side, side, 10)`, that is on screen and
      reached by a clear ray; and every such sample's cell is seen. */
  lemma {:induction false} TankAreaSpec(t: Tank, ws: seq<Wall>, c: Cell)
    ensures var r := Reach(t.kind, t.visionRange);
            var cx, cy := t.x + t.size / 2, t.y + t.size / 2;
            c in TankArea(t, ws) <==>
              exists d, s :: InRange(d, 0, r.0) && InRange(s, -r.1, r.1)
                             && SeenIn(cx, cy, DirX(t.direction), DirY(t.direction), d, s, ws, c)
  {
    var r := Reach(t.kind, t.visionRange);
    AreaSpec(t.x + t.size / 2, t.y + t.size / 2, DirX(t.direction), DirY(t.direction), 0, r.0, r.1, ws, c);
  }

  /** What `update_vision` records: an entry for exactly the living tanks of the list,
      each holding the cells that tank sees. */
  function Seen(ts: seq<Tank>, ws: seq<Wall>): map<Tank, set<Cell>>
    reads ts
  {
    map t | t in ts && t.isAlive :: TankArea(t, ws)
  }

  /** One more tank of the list adds its entry when it is alive and nothing otherwise. */
  lemma SeenSnoc(ts: seq<Tank>, i: nat, ws: seq<Wall>)
    requires i < |ts|
    ensures Seen(ts[..i + 1], ws)
            == if ts[i].isAlive then Seen(ts[..i], ws)[ts[i] := TankArea(ts[i], ws)] else Seen(ts[..i], ws)
  {
    assert ts[..i + 1] == ts[..i] + [ts[i]];
    var a, b := Seen(ts[..i + 1], ws), Seen(ts[..i], ws);
    if ts[i].isAlive {
      assert a.Keys == b.Keys + {ts[i]};
    } else {
      assert a.Keys == b.Keys;
    }
  }

  /** Some commander of the list is alive. */
  predicate CommanderAlive(ts: seq<Tank>)
    reads ts`isAlive
  {
    exists k :: 0 <= k < |ts| && ts[k].kind == EnemyCommander && ts[k].isAlive
  }

  /** The cells seen by the enemy (non-player) entries of a vision map. */
  function Pool(m: map<Tank, set<Cell>>): (r: set<Cell>)
    ensures forall c :: c in r <==> exists t :: t in m && t.kind != Player && c in m[t]
  {
    set t, c | t in m && t.kind != Player && c in m[t] :: c
  }

  class VisionSystem {
    const game: Game
    /** The cells each tank saw at the last update (Python keys it by `id(tank)`). */
    var visionMap: map<Tank, set<Cell>>
    var sharedVisionEnabled: bool

    constructor (g: Game)
      ensures game == g && visionMap == map[] && sharedVisionEnabled
    {
      game := g;
      visionMap := map[];
      sharedVisionEnabled := true;
    }

    /** `is_vision_blocked`: march the ray point by point, each against every wall. */
    method IsVisionBlocked(sx: int, sy: int, ex: int, ey: int) returns (r: bool)
      ensures r == Blocked(sx, sy, ex, ey, game.walls)
    {
      var n := Max(Abs(ex - sx), Abs(ey - sy)) / SampleGap;
      assert n == RaySteps(sx, sy, ex, ey);
      if n == 0 {
        return false;
      }
      var ws := game.walls;
      var i := 0;
      while i < n
        invariant 0 <= i <= n
        invariant forall i', k :: 0 <= i' < i && 0 <= k < |ws| ==> !SampleInWall(ws[k], sx, sy, ex, ey, n, i')
      {
        var k := 0;
        while k < |ws|
          invariant 0 <= k <= |ws|
          invariant forall k' :: 0 <= k' < k ==> !SampleInWall(ws[k'], sx, sy, ex, ey, n, i)
        {
          var w := ws[k];
          var px, py := sx * n + (ex - sx) * i, sy * n + (ey - sy) * i;
          if w.x * n <= px <= (w.x + WallSize) * n && w.y * n <= py <= (w.y + WallSize) * n {
            assert SampleInWall(ws[k], sx, sy, ex, ey, n, i);
            return true;
          }
          k := k + 1;
        }
        i := i + 1;
      }
      return false;
    }

    /** `calculate_vision_area`: every sample of the lattice that is on screen and
        reached by a clear ray adds its cell. */
    method CalculateVisionArea(cx: int, cy: int, fwd: int, side: int, dx: int, dy: int) returns (cells: set<Cell>)
      ensures cells == AreaFrom(cx, cy, dx, dy, 0, fwd, side, game.walls)
    {
      ghost var goal := AreaFrom(cx, cy, dx, dy, 0, fwd, side, game.walls);
      cells := {};
      var d := 0;
      while d < fwd
        invariant cells + AreaFrom(cx, cy, dx, dy, d, fwd, side, game.walls) == goal
        decreases fwd - d
      {
        var s := -side;
        while s < side
          invariant cells + RowFrom(cx, cy, dx, dy, d, s, side, game.walls)
                    + AreaFrom(cx, cy, dx, dy, d + SampleGap, fwd, side, game.walls) == goal
          decreases side - s
        {
          var x := cx + dx * d + (-dy) * s;
          var y := cy + dy * d + dx * s;
          if 0 <= x <= ScreenWidth && 0 <= y <= ScreenHeight {
            var blocked := IsVisionBlocked(cx, cy, x, y);
            if !blocked {
              cells := cells + {CellOf(x, y)};
            }
          }
          s := s + SampleGap;
        }
        d := d + SampleGap;
      }
    }

    /** `update_tank_vision`: record the cells `t` sees now. */
    method UpdateTankVision(t: Tank)
      modifies this`visionMap
      ensures visionMap == old(visionMap)[t := TankArea(t, game.walls)]
    {
      var r := Reach(t.kind, t.visionRange);
      var cx, cy := t.x + t.size / 2, t.y + t.size / 2;
      var cells: set<Cell>;
      match t.direction {
        case Up => cells := CalculateVisionArea(cx, cy, r.0, r.1, 0, -1);
        case Down => cells := CalculateVisionArea(cx, cy, r.0, r.1, 0, 1);
        case Left => cells := CalculateVisionArea(cx, cy, r.0, r.1, -1, 0);
        case Right => cells := CalculateVisionArea(cx, cy, r.0, r.1, 1, 0);
      }
      visionMap := visionMap[t := cells];
    }

    /** `update_vision`: sharing follows whether a commander is alive, and the map is
        rebuilt with an entry for exactly the living tanks, each holding what that tank
        sees now. */
    method UpdateVision()
      modifies this`visionMap, this`sharedVisionEnabled
      ensures sharedVisionEnabled <==> CommanderAlive(game.tanks)
      ensures visionMap == Seen(game.tanks, game.walls)
    {
      visionMap := map[];
      sharedVisionEnabled := CommanderAlive(game.tanks);
      var i := 0;
      while i < |game.tanks|
        invariant 0 <= i <= |game.tanks| && visionMap == Seen(game.tanks[..i], game.walls)
        invariant sharedVisionEnabled <==> CommanderAlive(game.tanks)
      {
        SeeAt(i);
        i := i + 1;
      }
      assert game.tanks[..i] == game.tanks;
    }

    /** One turn of the `update_vision` loop: tank `i` gets its entry if it is alive. */
    method SeeAt(i: nat)
      requires i < |game.tanks| && visionMap == Seen(game.tanks[..i], game.walls)
      modifies this`visionMap
      ensures visionMap == Seen(game.tanks[..i + 1], game.walls)
    {
      SeenSnoc(game.tanks, i, game.walls);
      var t := game.tanks[i];
      if t.isAlive {
        ghost var next := Seen(game.tanks[..i + 1], game.walls);
        UpdateTankVision(t);
        assert Seen(game.tanks[..i + 1], game.walls) == next;
      }
    }

    /** `get_shared_vision`: nothing while sharing is off, otherwise the union of what
        every enemy entry sees. */
    method GetSharedVision() returns (r: set<Cell>)
      ensures !sharedVisionEnabled ==> r == {}
      ensures sharedVisionEnabled ==>
                forall c :: c in r <==> exists t :: t in visionMap && t.kind != Player && c in visionMap[t]
    {
      if !sharedVisionEnabled {
        return {};
      }
      r := {};
      var pending := visionMap.Keys;
      while pending != {}
        invariant pending <= visionMap.Keys
        invariant forall c :: c in r <==> exists t :: t in visionMap.Keys - pending && t.kind != Player && c in visionMap[t]
        decreases pending
      {
        var t :| t in pending;
        if t.kind != Player {
          r := r + visionMap[t];
        }
        pending := pending - {t};
      }
    }

    /** `is_in_vision`: a tank without an entry sees nothing; otherwise the target's cell
        is checked against its own cells and then, for an enemy while sharing is on,
        against the shared pool. */
    function IsInVision(t: Tank, tx: int, ty: int): (r: bool)
      reads this`visionMap, this`sharedVisionEnabled
      ensures r <==> t in visionMap &&
                       (CellOf(tx, ty) in visionMap[t]
                        || (sharedVisionEnabled && t.kind != Player
                            && exists u :: u in visionMap && u.kind != Player && CellOf(tx, ty) in visionMap[u]))
    {
      if t !in visionMap then false
      else if CellOf(tx, ty) in visionMap[t] then true
      else if sharedVisionEnabled && t.kind != Player then CellOf(tx, ty) in Pool(visionMap)
      else false
    }
  }

  /** The player only ever sees its own cells; an enemy with an entry sees, while
      sharing is on, every cell any enemy entry holds. */
  lemma VisionSharing(v: VisionSystem, t: Tank, u: Tank, tx: int, ty: int)
    ensures t.kind == Player ==> (v.IsInVision(t, tx, ty) <==> t in v.visionMap && CellOf(tx, ty) in v.visionMap[t])
    ensures v.sharedVisionEnabled && t in v.visionMap && t.kind != Player
            && u in v.visionMap && u.kind != Player && CellOf(tx, ty) in v.visionMap[u]
            ==> v.IsInVision(t, tx, ty)
  {
  }
}
