/** The world container of main.py (`Game`): the tank, bullet and wall lists, the
    optional base and the game-over flag, with the per-tick bullet sweep, the three
    ordered collision passes of `check_collisions` and `check_game_over`.

    Each pass is specified by a function over snapshots (`Shot` for a bullet,
    `TankState` for a tank), and the methods that walk the object lists are proved
    to produce exactly what those functions compute. */
module World {
  import opened Common
  import opened Objects

  /** Winner labels exactly as main.py writes them; a bullet on the base writes a
      garbled label (see `BaseHitLabel`). */
  const PlayerLabel := "player"
  const EnemyLabel := "enemy"
  const BaseHitLabel := "en玩家emy"

  // ---------------------------------------------------------------------------
  // Snapshots

  /** What the sweep and the collision passes read of a bullet. */
  datatype Shot = Shot(bullet: Bullet, x: int, y: int, direction: Direction, owner: Tank) {
    function Bounds(): Rect { Rect(x, y, BulletSize, BulletSize) }
  }

  function ShotOf(b: Bullet): Shot
    reads b`x, b`y
  {
    Shot(b, b.x, b.y, b.direction, b.owner)
  }

  function Shots(bs: seq<Bullet>): (r: seq<Shot>)
    reads bs`x, bs`y
    ensures |r| == |bs|
  {
    if bs == [] then [] else [ShotOf(bs[0])] + Shots(bs[1..])
  }

  /** The snapshot list holds, at each index, the snapshot of the bullet there. */
  lemma {:induction false} ShotsIndex(bs: seq<Bullet>, i: nat)
    requires i < |bs|
    ensures Shots(bs)[i] == ShotOf(bs[i])
  {
    if i > 0 {
      ShotsIndex(bs[1..], i - 1);
    }
  }

  lemma {:induction false} ShotsAt(bs: seq<Bullet>)
    ensures forall i :: 0 <= i < |bs| ==> Shots(bs)[i] == ShotOf(bs[i])
  {
    forall i | 0 <= i < |bs| {
      ShotsIndex(bs, i);
    }
  }

  /** The snapshots of a list split around index `i`, with entry `i` replaced by `s`. */
  lemma {:induction false} ShotsAppend(a: seq<Bullet>, b: seq<Bullet>)
    ensures Shots(a + b) == Shots(a) + Shots(b)
  {
    if a == [] {
      assert a + b == b;
    } else {
      assert (a + b)[1..] == a[1..] + b;
      ShotsAppend(a[1..], b);
    }
  }

  /** The snapshots of a list split around index `i`, and the same with entry `i`
      replaced by `s`. */
  lemma {:induction false} ShotsSplit(bs: seq<Bullet>, i: nat, s: Shot)
    requires i < |bs|
    ensures Shots(bs) == Shots(bs[..i]) + [ShotOf(bs[i])] + Shots(bs[i + 1..])
    ensures Shots(bs)[i := s] == Shots(bs[..i]) + [s] + Shots(bs[i + 1..])
  {
    var a, b, c := bs[..i], bs[i], bs[i + 1..];
    calc {
      Shots(bs);
      { assert bs == a + ([b] + c); }
      Shots(a + ([b] + c));
      { ShotsAppend(a, [b] + c); }
      Shots(a) + Shots([b] + c);
      { assert ([b] + c)[1..] == c; }
      Shots(a) + ([ShotOf(b)] + Shots(c));
    }
    var x, y := Shots(a), Shots(c);
    assert (x + ([ShotOf(b)] + y))[i := s] == x + [s] + y;
  }

  function Ids(ss: seq<Shot>): (r: seq<Bullet>)
    ensures |r| == |ss|
  {
    if ss == [] then [] else [ss[0].bullet] + Ids(ss[1..])
  }

  /** `Ids` reads off the bullet of each snapshot, position by position. */
  lemma {:induction false} IdsAt(ss: seq<Shot>)
    ensures forall i :: 0 <= i < |ss| ==> Ids(ss)[i] == ss[i].bullet
  {
    if ss != [] {
      IdsAt(ss[1..]);
      forall i | 0 <= i < |ss| ensures Ids(ss)[i] == ss[i].bullet {
        if i > 0 { assert Ids(ss)[i] == Ids(ss[1..])[i - 1]; }
      }
    }
  }

  /** Snapshots that still describe their bullets are exactly the snapshots of
      their bullets. */
  lemma {:induction false} ShotsOfIds(ss: seq<Shot>)
    requires forall s :: s in ss ==> ShotOf(s.bullet) == s
    ensures Shots(Ids(ss)) == ss
  {
    if ss != [] {
      assert ss[0] in ss;
      assert forall s :: s in ss[1..] ==> s in ss;
      ShotsOfIds(ss[1..]);
    }
  }

  lemma {:induction false} IdsSnoc(ss: seq<Shot>, s: Shot)
    ensures Ids(ss + [s]) == Ids(ss) + [s.bullet]
  {
    IdsAt(ss + [s]);
    IdsAt(ss);
  }

  /** A pass that keeps `copy[i]` moves it from the unvisited rest of the list to the
      end of the kept prefix; the list itself does not change. */
  lemma {:induction false} KeepBullet(kept: seq<Shot>, copy: seq<Bullet>, i: nat, s: Shot)
    requires i < |copy| && s.bullet == copy[i]
    ensures Ids(kept) + copy[i..] == Ids(kept + [s]) + copy[i + 1..]
  {
    SpliceKeep(Ids(kept), copy, i);
    IdsSnoc(kept, s);
  }

  lemma {:induction false} IdsOfShots(bs: seq<Bullet>)
    ensures Ids(Shots(bs)) == bs
  {
    if bs != [] {
      IdsOfShots(bs[1..]);
    }
  }

  /** Snapshots taken from a list of bullets whose fields have not changed since are
      the snapshots of their own bullets. */
  lemma {:induction false} ShotsOfSub(bs: seq<Bullet>, ss: seq<Shot>)
    requires forall s :: s in ss ==> s in Shots(bs)
    ensures Shots(Ids(ss)) == ss
  {
    forall s | s in ss
      ensures ShotOf(s.bullet) == s
    {
      ShotsAt(bs);
      var k :| 0 <= k < |bs| && Shots(bs)[k] == s;
    }
    ShotsOfIds(ss);
  }

  /** A list of snapshots naming each bullet once names its head's bullet nowhere else. */
  lemma {:induction false} DistinctTail(s: Shot, tail: seq<Shot>)
    requires Distinct(Ids([s] + tail))
    ensures Distinct(Ids(tail)) && s.bullet !in Ids(tail)
  {
    var a := Ids([s] + tail);
    assert forall k :: 0 <= k < |tail| ==> Ids(tail)[k] == a[k + 1];
  }

  /** Keeping a head whose bullet is not in the tail, in front of snapshots drawn from
      the tail, names each bullet once. */
  lemma {:induction false} KeepDistinct(s: Shot, tail: seq<Shot>, out: seq<Shot>)
    requires s.bullet !in Ids(tail) && Distinct(Ids(out))
    requires forall t :: t in out ==> t in tail
    ensures Distinct(Ids([s] + out))
  {
    var r := Ids([s] + out);
    IdsAt(tail);
    IdsAt([s] + out);
    IdsAt(out);
    forall k | 0 < k < |r|
      ensures r[k] != s.bullet && r[k] == Ids(out)[k - 1]
    {
      var t := out[k - 1];
      assert t in tail;
      var m :| 0 <= m < |tail| && tail[m] == t;
      assert Ids(tail)[m] == t.bullet;
    }
  }

  /** What pass 2 reads and writes of a tank: its identity, rectangle, hit points, alive flag. */
  datatype TankState = TankState(tank: Tank, box: Rect, hp: int, alive: bool)

  function Snap(t: Tank): TankState
    reads t`x, t`y, t`hitPoints, t`isAlive
  {
    TankState(t, t.Bounds(), t.hitPoints, t.isAlive)
  }

  function Snaps(ts: seq<Tank>): (r: seq<TankState>)
    reads ts`x, ts`y, ts`hitPoints, ts`isAlive
    ensures |r| == |ts|
  {
    if ts == [] then [] else [Snap(ts[0])] + Snaps(ts[1..])
  }

  /** The snapshot list holds, at each index, the snapshot of the tank there. */
  lemma {:induction false} SnapsIndex(ts: seq<Tank>, i: nat)
    requires i < |ts|
    ensures Snaps(ts)[i] == Snap(ts[i])
  {
    if i > 0 {
      SnapsIndex(ts[1..], i - 1);
    }
  }

  lemma {:induction false} SnapsAt(ts: seq<Tank>)
    ensures forall i :: 0 <= i < |ts| ==> Snaps(ts)[i] == Snap(ts[i])
  {
    if ts != [] {
      SnapsAt(ts[1..]);
    }
  }

  /** The snapshot of a list is the snapshots of its parts, joined. */
  lemma {:induction false} SnapsAppend(a: seq<Tank>, b: seq<Tank>)
    ensures Snaps(a + b) == Snaps(a) + Snaps(b)
  {
    if a == [] {
      assert a + b == b;
    } else {
      assert (a + b)[1..] == a[1..] + b;
      SnapsAppend(a[1..], b);
    }
  }

  /** The snapshot of a list cut around index `j`. */
  lemma {:induction false} SnapsSplit(ts: seq<Tank>, j: nat)
    requires j < |ts|
    ensures Snaps(ts) == Snaps(ts[..j]) + [Snap(ts[j])] + Snaps(ts[j + 1..])
  {
    var a, t, b := ts[..j], ts[j], ts[j + 1..];
    calc {
      Snaps(ts);
      { assert ts == a + ([t] + b); }
      Snaps(a + ([t] + b));
      { SnapsAppend(a, [t] + b); }
      Snaps(a) + Snaps([t] + b);
      { assert ([t] + b)[1..] == b; }
      Snaps(a) + ([Snap(t)] + Snaps(b));
    }
  }

  /** Taking a tank out of the list takes its snapshot out of the snapshot list. */
  lemma {:induction false} SnapsRemoveAt(ts: seq<Tank>, j: nat)
    requires j < |ts|
    ensures Snaps(RemoveAt(ts, j)) == RemoveAt(Snaps(ts), j)
  {
    SnapsSplit(ts, j);
    SnapsAppend(ts[..j], ts[j + 1..]);
    var a, b := Snaps(ts[..j]), Snaps(ts[j + 1..]);
    assert (a + [Snap(ts[j])] + b)[..j] == a && (a + [Snap(ts[j])] + b)[j + 1..] == b;
  }

  // ---------------------------------------------------------------------------
  // The bullet sweep of Game.update

  /** A bullet's snapshot after one `Bullet.update`. */
  function Moved(s: Shot): (r: Shot)
    ensures r.bullet == s.bullet && r.direction == s.direction && r.owner == s.owner
    ensures Abs(r.x - s.x) + Abs(r.y - s.y) == BulletSpeed
  {
    s.(x := s.x + BulletSpeed * DirX(s.direction), y := s.y + BulletSpeed * DirY(s.direction))
  }

  function MoveAll(ss: seq<Shot>): (r: seq<Shot>)
    ensures |r| == |ss|
  {
    if ss == [] then [] else [Moved(ss[0])] + MoveAll(ss[1..])
  }

  /** Every bullet moves on its own: entry `i` of the moved list is entry `i` moved. */
  lemma {:induction false} MoveAllAt(ss: seq<Shot>, i: nat)
    requires i < |ss|
    ensures MoveAll(ss)[i] == Moved(ss[i])
  {
    if i > 0 {
      MoveAllAt(ss[1..], i - 1);
    }
  }

  /** The snapshots still on screen, in order. */
  function OnScreen(ss: seq<Shot>): seq<Shot>
  {
    if ss == [] then []
    else (if OffScreenAt(ss[0].x, ss[0].y) then [] else [ss[0]]) + OnScreen(ss[1..])
  }

  lemma {:induction false} OnScreenAppend(a: seq<Shot>, b: seq<Shot>)
    ensures OnScreen(a + b) == OnScreen(a) + OnScreen(b)
  {
    if a == [] {
      assert a + b == b;
    } else {
      assert (a + b)[1..] == a[1..] + b;
      OnScreenAppend(a[1..], b);
    }
  }

  lemma {:induction false} OnScreenSnoc(ss: seq<Shot>, i: nat)
    requires i < |ss|
    ensures OnScreen(ss[..i + 1]) == OnScreen(ss[..i]) + if OffScreenAt(ss[i].x, ss[i].y) then [] else [ss[i]]
  {
    TakeSnoc(ss, i);
    OnScreenAppend(ss[..i], [ss[i]]);
    assert [ss[i]][1..] == [];
  }

  /** Halfway through the sweep, the first `i` bullets have moved and the rest have not;
      moving bullet `i` extends the moved prefix by one. */
  lemma {:induction false} SweepFront(moved: seq<Shot>, orig: seq<Shot>, i: nat)
    requires |moved| == |orig| && i < |orig|
    ensures (moved[..i] + orig[i..])[i] == orig[i]
    ensures (moved[..i] + orig[i..])[i := moved[i]] == moved[..i + 1] + orig[i + 1..]
  {
  }

  /** The sweep keeps exactly the on-screen snapshots. */
  lemma {:induction false} OnScreenFilters(ss: seq<Shot>)
    ensures forall s :: s in OnScreen(ss) ==> s in ss
    ensures forall s :: s in OnScreen(ss) <==> s in ss && !OffScreenAt(s.x, s.y)
  {
    if ss != [] {
      OnScreenFilters(ss[1..]);
      assert ss == [ss[0]] + ss[1..];
    }
  }

  /** The sweep never repeats a bullet. */
  lemma {:induction false} OnScreenDistinct(ss: seq<Shot>)
    requires Distinct(Ids(ss))
    ensures Distinct(Ids(OnScreen(ss)))
  {
    if ss != [] {
      assert ss == [ss[0]] + ss[1..];
      DistinctTail(ss[0], ss[1..]);
      OnScreenDistinct(ss[1..]);
      if !OffScreenAt(ss[0].x, ss[0].y) {
        OnScreenFilters(ss[1..]);
        KeepDistinct(ss[0], ss[1..], OnScreen(ss[1..]));
      } else {
        assert OnScreen(ss) == OnScreen(ss[1..]);
      }
    }
  }

  /** The bullets the sweep keeps, once every bullet holds its moved snapshot: their
      snapshots are the on-screen ones and none is listed twice. */
  lemma {:induction false} SweepSurvivors(bs: seq<Bullet>, moved: seq<Shot>)
    requires Shots(bs) == moved && Distinct(bs)
    ensures Shots(Ids(OnScreen(moved))) == OnScreen(moved) && Distinct(Ids(OnScreen(moved)))
  {
    IdsOfShots(bs);
    OnScreenDistinct(moved);
    OnScreenFilters(moved);
    ShotsOfSub(bs, OnScreen(moved));
  }

  /** When the sweep over `copy` has visited every bullet, every bullet has moved and
      the list left holds, once each, exactly the bullets still on screen. */
  lemma {:induction false} SweepDone(copy: seq<Bullet>, orig: seq<Shot>, kept: seq<Shot>, after: seq<Bullet>, i: nat)
    requires i == |copy| == |orig| && Distinct(copy)
    requires after == Ids(kept) + copy[i..]
    requires kept == OnScreen(MoveAll(orig)[..i])
    requires Shots(copy) == MoveAll(orig)[..i] + orig[i..]
    ensures Shots(copy) == MoveAll(orig)
    ensures Shots(after) == OnScreen(MoveAll(orig)) && Distinct(after)
  {
    var moved := MoveAll(orig);
    assert moved[..i] == moved && orig[i..] == [] && copy[i..] == [] && Ids(kept) + [] == Ids(kept);
    SweepSurvivors(copy, moved);
  }

  // ---------------------------------------------------------------------------
  // Pass 1 of check_collisions: bullets against walls

  /** Index of the first wall, in list order, whose rectangle overlaps `r`. */
  function FirstWallHit(r: Rect, ws: seq<Wall>): (k: Option<nat>)
    ensures k.Some? ==> k.value < |ws|
  {
    if ws == [] then None
    else if Overlaps(r, ws[0].Bounds()) then Some(0)
    else match FirstWallHit(r, ws[1..])
      case None => None
      case Some(k) => Some(k + 1)
  }

  /** `FirstWallHit` finds a wall the rectangle overlaps, and no earlier one; it finds
      none exactly when the rectangle overlaps no wall of the list. */
  lemma {:induction false} FirstWallHitSpec(r: Rect, ws: seq<Wall>)
    ensures var k := FirstWallHit(r, ws);
            && (k.Some? ==> Overlaps(r, ws[k.value].Bounds()))
            && (k.Some? ==> forall j :: 0 <= j < k.value ==> !Overlaps(r, ws[j].Bounds()))
            && (k.None? ==> forall j :: 0 <= j < |ws| ==> !Overlaps(r, ws[j].Bounds()))
  {
    if ws != [] && !Overlaps(r, ws[0].Bounds()) {
      FirstWallHitSpec(r, ws[1..]);
      assert forall j :: 1 <= j < |ws| ==> ws[j] == ws[1..][j - 1];
    }
  }

  /** The walls after a bullet struck wall `k`: a soil wall is destroyed, metal stays. */
  function AfterWallImpact(ws: seq<Wall>, k: nat): seq<Wall>
    requires k < |ws|
  {
    if ws[k].kind == Soil then RemoveAt(ws, k) else ws
  }

  /** Pass 1 over the bullets in list order: the bullets that survive it and the walls
      left standing. A bullet acts on the first wall it overlaps only. */
  function WallPass(ss: seq<Shot>, ws: seq<Wall>): (seq<Shot>, seq<Wall>)
  {
    if ss == [] then ([], ws)
    else match FirstWallHit(ss[0].Bounds(), ws)
      case None =>
        var rest := WallPass(ss[1..], ws);
        ([ss[0]] + rest.0, rest.1)
      case Some(k) => WallPass(ss[1..], AfterWallImpact(ws, k))
  }

  /** What one bullet does in pass 1: kept when it overlaps no wall; otherwise removed,
      together with the first wall it overlaps when that wall is soil. */
  function WallHit(s: Shot, ws: seq<Wall>): (seq<Shot>, seq<Wall>)
  {
    match FirstWallHit(s.Bounds(), ws)
    case None => ([s], ws)
    case Some(k) => ([], AfterWallImpact(ws, k))
  }

  /** Pass 1 from bullet `i` on: bullet `i` acts first, then the rest follow. */
  lemma {:induction false} WallPassAt(ss: seq<Shot>, i: nat, ws: seq<Wall>, kept: seq<Shot>)
    requires i < |ss|
    ensures var (k, ws') := WallHit(ss[i], ws);
            && kept + WallPass(ss[i..], ws).0 == (kept + k) + WallPass(ss[i + 1..], ws').0
            && WallPass(ss[i..], ws).1 == WallPass(ss[i + 1..], ws').1
  {
    assert ss[i..][0] == ss[i] && ss[i..][1..] == ss[i + 1..];
    AppendAssoc(kept, WallHit(ss[i], ws).0, WallPass(ss[i + 1..], WallHit(ss[i], ws).1).0);
  }

  /** The state of pass 1 one bullet further on: what bullet `i` keeps joins the kept
      list, and the rest of the pass starts from the walls it leaves. */
  lemma {:induction false} WallAdvance(ss: seq<Shot>, i: nat, ws: seq<Wall>, kept: seq<Shot>,
                    goal: (seq<Shot>, seq<Wall>))
    requires i < |ss| && goal == (kept + WallPass(ss[i..], ws).0, WallPass(ss[i..], ws).1)
    ensures var (k, ws') := WallHit(ss[i], ws);
            goal == ((kept + k) + WallPass(ss[i + 1..], ws').0, WallPass(ss[i + 1..], ws').1)
  {
    WallPassAt(ss, i, ws, kept);
  }

  /** The walls of one kind, in order. */
  function OfKind(ws: seq<Wall>, kind: WallType): (r: seq<Wall>)
    ensures forall w :: w in r <==> w in ws && w.kind == kind
  {
    if ws == [] then []
    else (if ws[0].kind == kind then [ws[0]] else []) + OfKind(ws[1..], kind)
  }

  lemma {:induction false} OfKindAppend(a: seq<Wall>, b: seq<Wall>, kind: WallType)
    ensures OfKind(a + b, kind) == OfKind(a, kind) + OfKind(b, kind)
  {
    if a == [] {
      assert a + b == b;
    } else {
      assert (a + b)[1..] == a[1..] + b;
      OfKindAppend(a[1..], b, kind);
    }
  }

  /** Destroying a soil wall leaves the metal walls as they were. */
  lemma {:induction false} OfKindRemoveSoil(ws: seq<Wall>, k: nat)
    requires k < |ws| && ws[k].kind == Soil
    ensures OfKind(RemoveAt(ws, k), Metal) == OfKind(ws, Metal)
  {
    if k == 0 {
      assert RemoveAt(ws, k) == ws[1..];
    } else {
      OfKindRemoveSoil(ws[1..], k - 1);
      var r := RemoveAt(ws, k);
      assert r[0] == ws[0] && r[1..] == RemoveAt(ws[1..], k - 1);
    }
  }

  /** The wall pass never removes a metal wall, removes at most one soil wall per
      consumed bullet, and only ever removes walls and bullets. */
  lemma {:induction false} WallPassKeepsMetal(ss: seq<Shot>, ws: seq<Wall>)
    ensures OfKind(WallPass(ss, ws).1, Metal) == OfKind(ws, Metal)
    ensures |ws| - |WallPass(ss, ws).1| <= |ss| - |WallPass(ss, ws).0|
    ensures forall w :: w in WallPass(ss, ws).1 ==> w in ws
    ensures forall s :: s in WallPass(ss, ws).0 ==> s in ss
  {
    if ss != [] {
      match FirstWallHit(ss[0].Bounds(), ws)
      case None =>
        WallPassKeepsMetal(ss[1..], ws);
      case Some(k) =>
        WallPassKeepsMetal(ss[1..], AfterWallImpact(ws, k));
        if ws[k].kind == Soil {
          OfKindRemoveSoil(ws, k);
        }
    }
  }

  /** After pass 1 no surviving bullet overlaps a wall that is still standing. */
  lemma {:induction false} WallPassSurvivorsClear(ss: seq<Shot>, ws: seq<Wall>)
    ensures forall s, w :: s in WallPass(ss, ws).0 && w in WallPass(ss, ws).1 ==>
              !Overlaps(s.Bounds(), w.Bounds())
  {
    if ss != [] {
      WallPassKeepsMetal(ss[1..], ws);
      match FirstWallHit(ss[0].Bounds(), ws)
      case None =>
        FirstWallHitSpec(ss[0].Bounds(), ws);
        WallPassSurvivorsClear(ss[1..], ws);
      case Some(k) =>
        WallPassSurvivorsClear(ss[1..], AfterWallImpact(ws, k));
    }
  }

  /** Pass 1 never repeats a bullet. */
  lemma {:induction false} WallPassDistinct(ss: seq<Shot>, ws: seq<Wall>)
    requires Distinct(Ids(ss))
    ensures Distinct(Ids(WallPass(ss, ws).0))
  {
    if ss != [] {
      assert ss == [ss[0]] + ss[1..];
      DistinctTail(ss[0], ss[1..]);
      match FirstWallHit(ss[0].Bounds(), ws)
      case None =>
        WallPassDistinct(ss[1..], ws);
        WallPassKeepsMetal(ss[1..], ws);
        KeepDistinct(ss[0], ss[1..], WallPass(ss[1..], ws).0);
      case Some(k) =>
        WallPassDistinct(ss[1..], AfterWallImpact(ws, k));
    }
  }

  // ---------------------------------------------------------------------------
  // Pass 2 of check_collisions: bullets against tanks

  /** Index of the first tank, in list order, that the bullet overlaps and does not own. */
  function FirstTankHit(box: Rect, owner: Tank, ts: seq<TankState>): (k: Option<nat>)
    ensures k.Some? ==> k.value < |ts|
  {
    if ts == [] then None
    else if Overlaps(box, ts[0].box) && ts[0].tank != owner then Some(0)
    else match FirstTankHit(box, owner, ts[1..])
      case None => None
      case Some(k) => Some(k + 1)
  }

  /** `FirstTankHit` finds a tank the bullet overlaps and does not own, and no earlier
      one; it finds none exactly when no tank in the list is such a tank. */
  lemma {:induction false} FirstTankHitSpec(box: Rect, owner: Tank, ts: seq<TankState>)
    ensures var k := FirstTankHit(box, owner, ts);
            && (k.Some? ==> Overlaps(box, ts[k.value].box) && ts[k.value].tank != owner)
            && (k.Some? ==> forall j :: 0 <= j < k.value ==> !(Overlaps(box, ts[j].box) && ts[j].tank != owner))
            && (k.None? ==> forall j :: 0 <= j < |ts| ==> !(Overlaps(box, ts[j].box) && ts[j].tank != owner))
  {
    if ts != [] && !(Overlaps(box, ts[0].box) && ts[0].tank != owner) {
      FirstTankHitSpec(box, owner, ts[1..]);
      assert forall j :: 1 <= j < |ts| ==> ts[j] == ts[1..][j - 1];
    }
  }

  /** The tank list after tank `k` is hit: it loses a hit point and leaves the list
      exactly when that hit killed it. */
  function AfterTankHit(ts: seq<TankState>, k: nat): seq<TankState>
    requires k < |ts|
  {
    var (hp, alive) := HitOutcome(ts[k].hp, ts[k].alive);
    if !alive then RemoveAt(ts, k) else ts[k := ts[k].(hp := hp, alive := alive)]
  }

  /** Pass 2 over the bullets left by pass 1: the bullets that survive it and the tank
      list afterwards. A bullet hits the first tank it overlaps other than its owner. */
  function TankPass(ss: seq<Shot>, ts: seq<TankState>): (seq<Shot>, seq<TankState>)
  {
    if ss == [] then ([], ts)
    else match FirstTankHit(ss[0].Bounds(), ss[0].owner, ts)
      case None =>
        var rest := TankPass(ss[1..], ts);
        ([ss[0]] + rest.0, rest.1)
      case Some(k) => TankPass(ss[1..], AfterTankHit(ts, k))
  }

  /** One bullet of pass 2: whether it survives, and the tank list after it. */
  function TankHit(s: Shot, ts: seq<TankState>): (seq<Shot>, seq<TankState>)
  {
    match FirstTankHit(s.Bounds(), s.owner, ts)
    case None => ([s], ts)
    case Some(k) => ([], AfterTankHit(ts, k))
  }

  /** Pass 2 from bullet `i` on: bullet `i` acts first, then the rest follow. */
  lemma {:induction false} TankPassAt(ss: seq<Shot>, i: nat, ts: seq<TankState>, kept: seq<Shot>)
    requires i < |ss|
    ensures var (k, ts') := TankHit(ss[i], ts);
            && kept + TankPass(ss[i..], ts).0 == (kept + k) + TankPass(ss[i + 1..], ts').0
            && TankPass(ss[i..], ts).1 == TankPass(ss[i + 1..], ts').1
  {
    assert ss[i..][0] == ss[i] && ss[i..][1..] == ss[i + 1..];
    AppendAssoc(kept, TankHit(ss[i], ts).0, TankPass(ss[i + 1..], TankHit(ss[i], ts).1).0);
  }

  /** The state of pass 2 one bullet further on: what bullet `i` keeps joins the kept
      list, and the rest of the pass starts from the tanks it leaves. */
  lemma {:induction false} TankAdvance(ss: seq<Shot>, i: nat, ts: seq<TankState>, kept: seq<Shot>,
                    goal: (seq<Shot>, seq<TankState>))
    requires i < |ss| && goal == (kept + TankPass(ss[i..], ts).0, TankPass(ss[i..], ts).1)
    ensures var (k, ts') := TankHit(ss[i], ts);
            goal == ((kept + k) + TankPass(ss[i + 1..], ts').0, TankPass(ss[i + 1..], ts').1)
  {
    TankPassAt(ss, i, ts, kept);
  }

  /** Pass 2 only removes tanks or lowers their hit points: every tank left was in the
      list before with the same rectangle, no more hit points than before, and alive if
      it was alive; if every tank was alive, every tank left is alive. */
  lemma {:induction false} TankPassShrinks(ss: seq<Shot>, ts: seq<TankState>)
    ensures forall s' :: s' in TankPass(ss, ts).1 ==>
              exists s :: s in ts && s.tank == s'.tank && s.box == s'.box && s'.hp <= s.hp
    ensures (forall s :: s in ts ==> s.alive) ==> forall s' :: s' in TankPass(ss, ts).1 ==> s'.alive
    ensures forall s :: s in TankPass(ss, ts).0 ==> s in ss
  {
    if ss != [] {
      match FirstTankHit(ss[0].Bounds(), ss[0].owner, ts)
      case None =>
        TankPassShrinks(ss[1..], ts);
      case Some(k) =>
        var ts' := AfterTankHit(ts, k);
        TankPassShrinks(ss[1..], ts');
        forall s' | s' in TankPass(ss, ts).1
          ensures exists s :: s in ts && s.tank == s'.tank && s.box == s'.box && s'.hp <= s.hp
        {
          var m :| m in ts' && m.tank == s'.tank && m.box == s'.box && s'.hp <= m.hp;
          var i :| 0 <= i < |ts'| && ts'[i] == m;
          if !HitOutcome(ts[k].hp, ts[k].alive).1 {
            if i < k { assert ts[i] == m; } else { assert ts[i + 1] == m; }
          } else if i != k {
            assert ts[i] == m;
          } else {
            assert ts[k] in ts;
          }
        }
    }
  }

  /** After pass 2 no surviving bullet overlaps a tank still in the list, its owner apart. */
  lemma {:induction false} TankPassSurvivorsClear(ss: seq<Shot>, ts: seq<TankState>)
    ensures forall b, s :: b in TankPass(ss, ts).0 && s in TankPass(ss, ts).1 ==>
              !Overlaps(b.Bounds(), s.box) || s.tank == b.owner
  {
    if ss != [] {
      match FirstTankHit(ss[0].Bounds(), ss[0].owner, ts)
      case None =>
        FirstTankHitSpec(ss[0].Bounds(), ss[0].owner, ts);
        TankPassSurvivorsClear(ss[1..], ts);
        TankPassShrinks(ss[1..], ts);
        forall s | s in TankPass(ss, ts).1
          ensures !Overlaps(ss[0].Bounds(), s.box) || s.tank == ss[0].owner
        {
          var s0 :| s0 in ts && s0.tank == s.tank && s0.box == s.box && s.hp <= s0.hp;
          var j :| 0 <= j < |ts| && ts[j] == s0;
        }
      case Some(k) =>
        TankPassSurvivorsClear(ss[1..], AfterTankHit(ts, k));
    }
  }

  /** Pass 2 never repeats a bullet. */
  lemma {:induction false} TankPassDistinct(ss: seq<Shot>, ts: seq<TankState>)
    requires Distinct(Ids(ss))
    ensures Distinct(Ids(TankPass(ss, ts).0))
  {
    if ss != [] {
      assert ss == [ss[0]] + ss[1..];
      DistinctTail(ss[0], ss[1..]);
      match FirstTankHit(ss[0].Bounds(), ss[0].owner, ts)
      case None =>
        TankPassDistinct(ss[1..], ts);
        TankPassShrinks(ss[1..], ts);
        KeepDistinct(ss[0], ss[1..], TankPass(ss[1..], ts).0);
      case Some(k) =>
        TankPassDistinct(ss[1..], AfterTankHit(ts, k));
    }
  }

  // ---------------------------------------------------------------------------
  // Pass 3 of check_collisions: bullets against the base

  predicate HitsBase(s: Shot, base: Option<Base>) {
    base.Some? && Overlaps(s.Bounds(), base.value.Bounds())
  }

  /** Pass 3 removes every bullet on the base; the base itself stays. */
  function BasePass(ss: seq<Shot>, base: Option<Base>): seq<Shot>
  {
    if ss == [] then []
    else (if HitsBase(ss[0], base) then [] else [ss[0]]) + BasePass(ss[1..], base)
  }

  /** Some bullet of the list is on the base. */
  predicate AnyHitsBase(ss: seq<Shot>, base: Option<Base>) {
    ss != [] && (HitsBase(ss[0], base) || AnyHitsBase(ss[1..], base))
  }

  lemma {:induction false} AnyHitsBaseExists(ss: seq<Shot>, base: Option<Base>)
    ensures AnyHitsBase(ss, base) <==> exists s :: s in ss && HitsBase(s, base)
  {
    if ss != [] {
      AnyHitsBaseExists(ss[1..], base);
      assert ss == [ss[0]] + ss[1..];
    }
  }



  /** Pass 3 keeps exactly the bullets off the base, and removes some bullet exactly
      when some bullet hits the base (which is when the game ends). */
  lemma {:induction false} BasePassFilters(ss: seq<Shot>, base: Option<Base>)
    ensures forall s :: s in BasePass(ss, base) ==> s in ss
    ensures forall s :: s in BasePass(ss, base) <==> s in ss && !HitsBase(s, base)
    ensures |BasePass(ss, base)| <= |ss|
    ensures |BasePass(ss, base)| < |ss| <==> AnyHitsBase(ss, base)
  {
    if ss != [] {
      BasePassFilters(ss[1..], base);
      assert ss == [ss[0]] + ss[1..];
    }
  }

  /** Pass 3 never repeats a bullet. */
  lemma {:induction false} BasePassDistinct(ss: seq<Shot>, base: Option<Base>)
    requires Distinct(Ids(ss))
    ensures Distinct(Ids(BasePass(ss, base)))
  {
    if ss != [] {
      assert ss == [ss[0]] + ss[1..];
      DistinctTail(ss[0], ss[1..]);
      BasePassDistinct(ss[1..], base);
      if !HitsBase(ss[0], base) {
        BasePassFilters(ss[1..], base);
        KeepDistinct(ss[0], ss[1..], BasePass(ss[1..], base));
      } else {
        assert BasePass(ss, base) == BasePass(ss[1..], base);
      }
    }
  }

  /** The bullets pass 1 keeps, read back from the list: their snapshots are the
      surviving ones and none is listed twice. */
  lemma {:induction false} WallSurvivors(bs: seq<Bullet>, ws: seq<Wall>)
    requires Distinct(bs)
    ensures var kept := WallPass(Shots(bs), ws).0; Shots(Ids(kept)) == kept && Distinct(Ids(kept))
  {
    IdsOfShots(bs);
    WallPassKeepsMetal(Shots(bs), ws);
    WallPassDistinct(Shots(bs), ws);
    ShotsOfSub(bs, WallPass(Shots(bs), ws).0);
  }

  /** The bullets pass 2 keeps, read back from the list: their snapshots are the
      surviving ones and none is listed twice. */
  lemma {:induction false} TankSurvivors(bs: seq<Bullet>, ts: seq<TankState>)
    requires Distinct(bs)
    ensures var kept := TankPass(Shots(bs), ts).0; Shots(Ids(kept)) == kept && Distinct(Ids(kept))
  {
    IdsOfShots(bs);
    TankPassShrinks(Shots(bs), ts);
    TankPassDistinct(Shots(bs), ts);
    ShotsOfSub(bs, TankPass(Shots(bs), ts).0);
  }

  /** The bullets pass 3 keeps, read back from the list: their snapshots are the
      surviving ones and none is listed twice. */
  lemma {:induction false} BaseSurvivors(bs: seq<Bullet>, base: Option<Base>)
    requires Distinct(bs)
    ensures var kept := BasePass(Shots(bs), base); Shots(Ids(kept)) == kept && Distinct(Ids(kept))
  {
    IdsOfShots(bs);
    BasePassFilters(Shots(bs), base);
    BasePassDistinct(Shots(bs), base);
    ShotsOfSub(bs, BasePass(Shots(bs), base));
  }

  /** When pass 1 has visited every bullet, the list left holds, once each, exactly
      the bullets the pass keeps, and the walls are the ones it leaves. */
  lemma {:induction false} WallDone(copy: seq<Bullet>, shots: seq<Shot>, kept: seq<Shot>, after: seq<Bullet>,
                 ws0: seq<Wall>, ws: seq<Wall>, i: nat)
    requires i == |copy| && Distinct(copy) && Shots(copy) == shots
    requires after == Ids(kept) + copy[i..]
    requires WallPass(shots, ws0) == (kept + WallPass(shots[i..], ws).0, WallPass(shots[i..], ws).1)
    ensures (Shots(after), ws) == WallPass(shots, ws0) && Distinct(after)
  {
    assert shots[i..] == [] && copy[i..] == [] && Ids(kept) + [] == Ids(kept) && kept + [] == kept;
    WallSurvivors(copy, ws0);
  }

  /** When pass 2 has visited every bullet, the list left holds, once each, exactly
      the bullets the pass keeps, and the tanks are in the state it leaves. */
  lemma {:induction false} TankDone(copy: seq<Bullet>, shots: seq<Shot>, kept: seq<Shot>, after: seq<Bullet>,
                 ts0: seq<TankState>, ts: seq<TankState>, i: nat)
    requires i == |copy| && Distinct(copy) && Shots(copy) == shots
    requires after == Ids(kept) + copy[i..]
    requires TankPass(shots, ts0) == (kept + TankPass(shots[i..], ts).0, TankPass(shots[i..], ts).1)
    ensures (Shots(after), ts) == TankPass(shots, ts0) && Distinct(after)
  {
    assert shots[i..] == [] && copy[i..] == [] && Ids(kept) + [] == Ids(kept) && kept + [] == kept;
    TankSurvivors(copy, ts0);
  }

  /** Pass 3 split after its first `i` bullets: the verdict on bullet `i` moves from
      the rest of the pass to what has been decided. */
  lemma {:induction false} BaseTurn(ss: seq<Shot>, i: nat, base: Option<Base>, kept: seq<Shot>, seen: bool)
    requires i < |ss|
    ensures kept + BasePass(ss[i..], base)
            == (kept + if HitsBase(ss[i], base) then [] else [ss[i]]) + BasePass(ss[i + 1..], base)
    ensures (seen || AnyHitsBase(ss[i..], base)) == ((seen || HitsBase(ss[i], base)) || AnyHitsBase(ss[i + 1..], base))
  {
    assert ss[i..][0] == ss[i] && ss[i..][1..] == ss[i + 1..];
  }

  /** When pass 3 has visited every bullet, the list left holds, once each, exactly
      the bullets off the base. */
  lemma {:induction false} BaseDone(copy: seq<Bullet>, shots: seq<Shot>, kept: seq<Shot>, after: seq<Bullet>,
                 base: Option<Base>, i: nat)
    requires i == |copy| && Distinct(copy) && Shots(copy) == shots
    requires after == Ids(kept) + copy[i..] && BasePass(shots, base) == kept + BasePass(shots[i..], base)
    ensures Shots(after) == BasePass(shots, base) && Distinct(after)
    ensures !AnyHitsBase(shots[i..], base)
  {
    assert shots[i..] == [] && copy[i..] == [] && Ids(kept) + [] == Ids(kept) && kept + [] == kept;
    BaseSurvivors(copy, base);
  }

  // ---------------------------------------------------------------------------
  // check_collisions as a whole

  /** What check_collisions leaves: the bullets, walls and tanks, and the game-over
      flag and winner. */
  datatype Outcome = Outcome(shots: seq<Shot>, walls: seq<Wall>, tanks: seq<TankState>,
                             over: bool, winner: Option<string>)

  /** The three passes in their fixed order, each over the bullets the previous one left. */
  function Collide(ss: seq<Shot>, ws: seq<Wall>, ts: seq<TankState>, base: Option<Base>,
                   over: bool, winner: Option<string>): Outcome
  {
    var p1 := WallPass(ss, ws);
    var p2 := TankPass(p1.0, ts);
    var hit := AnyHitsBase(p2.0, base);
    Outcome(BasePass(p2.0, base), p1.1, p2.1, over || hit, if hit then Some(BaseHitLabel) else winner)
  }

  // ---------------------------------------------------------------------------
  // check_game_over

  predicate HasEnemy(ts: seq<Tank>) {
    exists t :: t in ts && t.kind != Player
  }

  predicate HasPlayer(ts: seq<Tank>) {
    exists t :: t in ts && t.kind == Player
  }

  /** Game-over flag and winner after `check_game_over` on a started game: no enemy
      left means the player wins, no player left means the enemy wins; the enemy
      check is written last, so with both lists empty the enemy wins. */
  function Verdict(hasEnemy: bool, hasPlayer: bool, over: bool, winner: Option<string>): (r: (bool, Option<string>))
    ensures r.0 <==> over || !hasEnemy || !hasPlayer
    ensures !hasPlayer ==> r.1 == Some(EnemyLabel)
    ensures hasPlayer && !hasEnemy ==> r.1 == Some(PlayerLabel)
    ensures hasPlayer && hasEnemy ==> r == (over, winner)
  {
    var (o1, w1) := if !hasEnemy then (true, Some(PlayerLabel)) else (over, winner);
    if !hasPlayer then (true, Some(EnemyLabel)) else (o1, w1)
  }

  class Game {
    var tanks: seq<Tank>
    var bullets: seq<Bullet>
    var walls: seq<Wall>
    var base: Option<Base>
    var gameOver: bool
    var winner: Option<string>

    /** Each tank and each bullet is in its list once. */
    ghost predicate Valid()
      reads this
    {
      Distinct(tanks) && Distinct(bullets)
    }

    constructor ()
      ensures tanks == [] && bullets == [] && walls == [] && base == None
      ensures !gameOver && winner == None
      ensures Valid()
    {
      tanks, bullets, walls, base := [], [], [], None;
      gameOver, winner := false, None;
    }

    /** The sweep of `update`: every bullet advances one step, then the ones that
        have left the screen are dropped. */
    method AdvanceBullets()
      requires Valid()
      modifies this`bullets, bullets
      ensures Valid()
      ensures Shots(old(bullets)) == MoveAll(old(Shots(bullets)))
      ensures Shots(bullets) == OnScreen(MoveAll(old(Shots(bullets))))
    {
      var copy := bullets;
      ghost var orig := Shots(copy);
      ghost var moved := MoveAll(orig);
      ghost var kept: seq<Shot> := [];
      var i := 0;
      assert copy[i..] == copy && moved[..i] + orig[i..] == orig;
      while i < |copy|
        invariant 0 <= i <= |copy|
        invariant bullets == Ids(kept) + copy[i..]
        invariant kept == OnScreen(moved[..i])
        invariant Shots(copy) == moved[..i] + orig[i..]
      {
        SweepFront(moved, orig, i);
        MoveAllAt(orig, i);
        kept := SweepOne(copy, i, moved, kept);
        i := i + 1;
      }
      SweepDone(copy, orig, kept, bullets, i);
    }

    /** One turn of the sweep: advance `copy[i]`, and remove it from the list (where it
        sits right after the bullets already kept) if it is off screen. */
    method SweepOne(copy: seq<Bullet>, i: nat, ghost moved: seq<Shot>, ghost kept: seq<Shot>)
      returns (ghost kept': seq<Shot>)
      requires i < |copy| == |moved| && Distinct(copy)
      requires moved[i] == Moved(Shots(copy)[i])
      requires bullets == Ids(kept) + copy[i..] && kept == OnScreen(moved[..i])
      modifies this`bullets, copy[i]
      ensures bullets == Ids(kept') + copy[i + 1..] && kept' == OnScreen(moved[..i + 1])
      ensures Shots(copy) == old(Shots(copy))[i := moved[i]]
    {
      var b := copy[i];
      DistinctAt(copy, i);
      ShotsSplit(copy, i, moved[i]);
      b.Update();
      ShotsSplit(copy, i, moved[i]);
      assert ShotOf(b) == moved[i];
      assert Shots(copy[..i]) == old(Shots(copy[..i]));
      assert Shots(copy[i + 1..]) == old(Shots(copy[i + 1..]));
      OnScreenSnoc(moved, i);
      if b.IsOffScreen() {
        RemoveBullet(copy, i, kept);
        kept' := kept;
      } else {
        KeepBullet(kept, copy, i, moved[i]);
        kept' := kept + [moved[i]];
      }
    }

    /** `self.bullets.remove(b)` for the bullet `copy[i]` a pass is visiting: the list
        is the kept prefix followed by the unvisited rest, so `b` sits right after the
        prefix. */
    method RemoveBullet(copy: seq<Bullet>, i: nat, ghost kept: seq<Shot>)
      requires i < |copy| && bullets == Ids(kept) + copy[i..]
      modifies this`bullets
      ensures bullets == Ids(kept) + copy[i + 1..]
      ensures Shots(copy) == old(Shots(copy)) && Snaps(tanks) == old(Snaps(tanks))
    {
      var pos := |bullets| - (|copy| - i);
      SpliceOut(Ids(kept), copy, i);
      bullets := RemoveAt(bullets, pos);
    }

    /** The inner loop of pass 1: the index of the first wall the bullet overlaps. */
    method FindWall(b: Bullet) returns (k: Option<nat>)
      ensures k == FirstWallHit(b.Bounds(), walls)
    {
      FirstWallHitSpec(b.Bounds(), walls);
      var j := 0;
      while j < |walls|
        invariant 0 <= j <= |walls|
        invariant forall m :: 0 <= m < j ==> !Overlaps(b.Bounds(), walls[m].Bounds())
      {
        if Overlaps(b.Bounds(), walls[j].Bounds()) {
          return Some(j);
        }
        j := j + 1;
      }
      return None;
    }

    /** What pass 1 has established once it has visited `copy[..i]`: the bullets still
        listed are the kept ones followed by the unvisited rest, and what is kept so far
        and what the rest of the pass does with the walls left make up the whole pass. */
    ghost predicate WallSoFar(copy: seq<Bullet>, shots: seq<Shot>, kept: seq<Shot>,
                              goal: (seq<Shot>, seq<Wall>), i: nat)
      reads this, copy
    {
      i <= |copy| && Shots(copy) == shots && bullets == Ids(kept) + copy[i..]
      && goal == (kept + WallPass(shots[i..], walls).0, WallPass(shots[i..], walls).1)
    }

    /** Pass 1: a bullet on a wall is removed, and so is that wall when it is soil. */
    method BulletWallPass()
      requires Valid()
      modifies this`bullets, this`walls
      ensures Valid()
      ensures (Shots(bullets), walls) == WallPass(old(Shots(bullets)), old(walls))
    {
      var copy := bullets;
      ghost var shots := Shots(copy);
      ghost var goal := WallPass(shots, walls);
      ghost var kept: seq<Shot> := [];
      var i := 0;
      assert copy[i..] == copy && shots[i..] == shots && kept + goal.0 == goal.0;
      while i < |copy|
        invariant WallSoFar(copy, shots, kept, goal, i)
      {
        kept := WallStep(copy, i, shots, kept, goal);
        i := i + 1;
      }
      WallDone(copy, shots, kept, bullets, old(walls), walls, i);
    }

    /** One turn of pass 1 for `copy[i]`, as the loop sees it: the state it
        establishes is the state of the pass one bullet further on. */
    method WallStep(copy: seq<Bullet>, i: nat, ghost shots: seq<Shot>, ghost kept: seq<Shot>,
                    ghost goal: (seq<Shot>, seq<Wall>))
      returns (ghost kept': seq<Shot>)
      requires i < |copy| && WallSoFar(copy, shots, kept, goal, i)
      modifies this`bullets, this`walls
      ensures WallSoFar(copy, shots, kept', goal, i + 1)
    {
      ShotsIndex(copy, i);
      WallAdvance(shots, i, walls, kept, goal);
      kept' := WallAct(copy, i, shots[i], kept);
    }

    /** The body of pass 1 for `copy[i]`: find the first wall it overlaps; if there is
        one, destroy it when it is soil and remove the bullet. */
    method WallAct(copy: seq<Bullet>, i: nat, ghost s: Shot, ghost kept: seq<Shot>)
      returns (ghost kept': seq<Shot>)
      requires i < |copy| && s == ShotOf(copy[i]) && bullets == Ids(kept) + copy[i..]
      modifies this`bullets, this`walls
      ensures bullets == Ids(kept') + copy[i + 1..]
      ensures kept' == kept + WallHit(s, old(walls)).0 && walls == WallHit(s, old(walls)).1
      ensures Shots(copy) == old(Shots(copy))
    {
      var hit := FindWall(copy[i]);
      match hit
      case Some(j) =>
        if walls[j].kind == Soil {
          walls := RemoveAt(walls, j);
        }
        kept' := kept;
        RemoveBullet(copy, i, kept);
      case None =>
        kept' := kept + [s];
        KeepBullet(kept, copy, i, s);
    }

    /** The inner loop of pass 2: the index of the first tank the bullet overlaps
        other than its owner. */
    method FindTank(b: Bullet) returns (k: Option<nat>)
      ensures k == FirstTankHit(b.Bounds(), b.owner, Snaps(tanks))
    {
      ghost var snaps := Snaps(tanks);
      FirstTankHitSpec(b.Bounds(), b.owner, snaps);
      var j := 0;
      while j < |tanks|
        invariant 0 <= j <= |tanks|
        invariant forall m :: 0 <= m < j ==> !(Overlaps(b.Bounds(), snaps[m].box) && snaps[m].tank != b.owner)
      {
        SnapsIndex(tanks, j);
        if Overlaps(b.Bounds(), tanks[j].Bounds()) && b.owner != tanks[j] {
          return Some(j);
        }
        j := j + 1;
      }
      return None;
    }

    /** What pass 2 has established once it has visited `copy[..i]`: the bullets still
        listed are the kept ones followed by the unvisited rest, what is kept so far and
        what the rest of the pass does to the tanks left make up the whole pass, and the
        tank list names each tank once, all drawn from `pool`. */
    ghost predicate TankSoFar(copy: seq<Bullet>, shots: seq<Shot>, kept: seq<Shot>,
                              goal: (seq<Shot>, seq<TankState>), pool: set<Tank>, i: nat)
      reads this, copy, tanks
    {
      i <= |copy| && Shots(copy) == shots && bullets == Ids(kept) + copy[i..]
      && goal == (kept + TankPass(shots[i..], Snaps(tanks)).0, TankPass(shots[i..], Snaps(tanks)).1)
      && Distinct(tanks) && forall t :: t in tanks ==> t in pool
    }

    /** Pass 2: a bullet on a tank other than its owner hits that tank and is removed;
        a tank the hit kills leaves the list. */
    method BulletTankPass()
      requires Valid()
      modifies this`bullets, this`tanks, tanks`hitPoints, tanks`isAlive
      ensures Valid()
      ensures (Shots(bullets), Snaps(tanks)) == TankPass(old(Shots(bullets)), old(Snaps(tanks)))
      ensures forall t :: t in tanks ==> t in old(tanks)
    {
      var copy := bullets;
      ghost var pool := set t | t in tanks;
      ghost var shots := Shots(copy);
      ghost var goal := TankPass(shots, Snaps(tanks));
      ghost var kept: seq<Shot> := [];
      var i := 0;
      assert copy[i..] == copy && shots[i..] == shots && kept + goal.0 == goal.0;
      while i < |copy|
        invariant TankSoFar(copy, shots, kept, goal, pool, i)
      {
        kept := TankStep(copy, i, shots, kept, goal, pool);
        i := i + 1;
      }
      TankDone(copy, shots, kept, bullets, old(Snaps(tanks)), Snaps(tanks), i);
    }

    /** One turn of pass 2 for `copy[i]`, as the loop sees it: the state it
        establishes is the state of the pass one bullet further on. */
    method TankStep(copy: seq<Bullet>, i: nat, ghost shots: seq<Shot>, ghost kept: seq<Shot>,
                    ghost goal: (seq<Shot>, seq<TankState>), ghost pool: set<Tank>)
      returns (ghost kept': seq<Shot>)
      requires i < |copy| && TankSoFar(copy, shots, kept, goal, pool, i)
      modifies this`bullets, this`tanks, pool`hitPoints, pool`isAlive
      ensures TankSoFar(copy, shots, kept', goal, pool, i + 1)
    {
      ShotsIndex(copy, i);
      TankAdvance(shots, i, Snaps(tanks), kept, goal);
      kept' := TankAct(copy, i, shots[i], kept);
    }

    /** The body of pass 2 for `copy[i]`: find the first tank it overlaps other than
        its owner; if there is one, strike it and remove the bullet. */
    method TankAct(copy: seq<Bullet>, i: nat, ghost s: Shot, ghost kept: seq<Shot>)
      returns (ghost kept': seq<Shot>)
      requires i < |copy| && s == ShotOf(copy[i])
      requires bullets == Ids(kept) + copy[i..] && Distinct(tanks)
      modifies this`bullets, this`tanks, tanks`hitPoints, tanks`isAlive
      ensures bullets == Ids(kept') + copy[i + 1..] && Distinct(tanks)
      ensures kept' == kept + TankHit(s, old(Snaps(tanks))).0 && Snaps(tanks) == TankHit(s, old(Snaps(tanks))).1
      ensures Shots(copy) == old(Shots(copy))
      ensures forall t :: t in tanks ==> t in old(tanks)
    {
      ghost var before := Snaps(tanks);
      var hit := FindTank(copy[i]);
      assert hit == FirstTankHit(s.Bounds(), s.owner, before);
      match hit
      case Some(j) =>
        assert TankHit(s, before) == ([], AfterTankHit(before, j));
        kept' := kept;
        StrikeTank(j, copy);
        RemoveBullet(copy, i, kept);
      case None =>
        assert TankHit(s, before) == ([s], before);
        kept' := kept + [s];
        KeepBullet(kept, copy, i, s);
    }

    /** The body of pass 2 for the tank at index `j`: `hit` it, and drop it from the
        list if that killed it. */
    method StrikeTank(j: nat, ghost bs: seq<Bullet>)
      requires Distinct(tanks) && j < |tanks|
      modifies this`tanks, tanks[j..j + 1]`hitPoints, tanks[j..j + 1]`isAlive
      ensures Distinct(tanks)
      ensures Snaps(tanks) == AfterTankHit(old(Snaps(tanks)), j)
      ensures forall t :: t in tanks ==> t in old(tanks)
      ensures var t := old(tanks[j]);
                (t.hitPoints, t.isAlive) == HitOutcome(old(t.hitPoints), old(t.isAlive))
                && (t !in tanks <==> !t.isAlive)
      ensures forall t :: t in old(tanks) && t != old(tanks[j]) ==> t in tanks
      ensures Shots(bs) == old(Shots(bs))
    {
      var tank := tanks[j];
      ghost var before := Snaps(tanks);
      SnapsIndex(tanks, j);
      HitTank(j, bs);
      if !tank.isAlive && tank in tanks {
        RemoveAtUpdate(before, j, before[j].(hp := tank.hitPoints, alive := tank.isAlive));
        DropTank(j, bs);
      }
    }

    /** The struck tank loses a hit point in place; the list and every other tank stay. */
    method HitTank(j: nat, ghost bs: seq<Bullet>)
      requires Distinct(tanks) && j < |tanks|
      modifies tanks[j..j + 1]`hitPoints, tanks[j..j + 1]`isAlive
      ensures var t := tanks[j];
                (t.hitPoints, t.isAlive) == HitOutcome(old(t.hitPoints), old(t.isAlive))
                && Snaps(tanks) == old(Snaps(tanks))[j := old(Snaps(tanks))[j].(hp := t.hitPoints, alive := t.isAlive)]
      ensures Shots(bs) == old(Shots(bs))
    {
      var tank := tanks[j];
      ghost var before := Snaps(tanks);
      SnapsAt(tanks);
      DistinctIndex(tanks);
      tank.Hit();
      assert forall k :: 0 <= k < |tanks| && k != j ==> Snap(tanks[k]) == before[k];
      SnapsAt(tanks);
    }

    /** A dead tank leaves the list; no tank changes. */
    method DropTank(j: nat, ghost bs: seq<Bullet>)
      requires Distinct(tanks) && j < |tanks|
      modifies this`tanks
      ensures Distinct(tanks) && tanks == RemoveAt(old(tanks), j)
      ensures Snaps(tanks) == RemoveAt(old(Snaps(tanks)), j)
      ensures forall t :: t in tanks <==> t in old(tanks) && t != old(tanks[j])
      ensures Shots(bs) == old(Shots(bs))
    {
      RemoveAtKeepsDistinct(tanks, j);
      SnapsRemoveAt(tanks, j);
      tanks := RemoveAt(tanks, j);
    }

    /** What pass 3 has established once it has visited `copy[..i]`: the bullets still
        listed are the kept ones followed by the unvisited rest, what is kept so far and
        what the rest will keep make up the whole pass, and the flag and winner record
        whether a visited bullet hit the base. */
    ghost predicate BaseSoFar(copy: seq<Bullet>, shots: seq<Shot>, kept: seq<Shot>, seen: bool,
                              over0: bool, winner0: Option<string>, ts0: seq<TankState>, i: nat)
      reads this, copy, tanks
    {
      i <= |copy| && Shots(copy) == shots && bullets == Ids(kept) + copy[i..] && Snaps(tanks) == ts0
      && BasePass(shots, base) == kept + BasePass(shots[i..], base)
      && AnyHitsBase(shots, base) == (seen || AnyHitsBase(shots[i..], base))
      && gameOver == (over0 || seen)
      && winner == if seen then Some(BaseHitLabel) else winner0
    }

    /** Pass 3: every bullet on the base is removed and ends the game, writing the
        winner label the source writes there. */
    method BulletBasePass()
      requires Valid()
      modifies this`bullets, this`gameOver, this`winner
      ensures Valid()
      ensures Shots(bullets) == BasePass(old(Shots(bullets)), base)
      ensures gameOver == (old(gameOver) || AnyHitsBase(old(Shots(bullets)), base))
      ensures winner == if AnyHitsBase(old(Shots(bullets)), base) then Some(BaseHitLabel) else old(winner)
      ensures Snaps(tanks) == old(Snaps(tanks))
    {
      var copy := bullets;
      ghost var shots := Shots(copy);
      ghost var kept: seq<Shot> := [];
      ghost var seen := false;
      var i := 0;
      assert copy[i..] == copy && shots[i..] == shots && [] + BasePass(shots, base) == BasePass(shots, base);
      while i < |copy|
        invariant BaseSoFar(copy, shots, kept, seen, old(gameOver), old(winner), old(Snaps(tanks)), i)
      {
        kept, seen := BaseStep(copy, i, shots, kept, seen, old(gameOver), old(winner), old(Snaps(tanks)));
        i := i + 1;
      }
      BaseDone(copy, shots, kept, bullets, base, i);
    }

    /** One turn of pass 3 for `copy[i]`. */
    method BaseStep(copy: seq<Bullet>, i: nat, ghost shots: seq<Shot>, ghost kept: seq<Shot>, ghost seen: bool,
                    ghost over0: bool, ghost winner0: Option<string>, ghost ts0: seq<TankState>)
      returns (ghost kept': seq<Shot>, ghost seen': bool)
      requires i < |copy| && BaseSoFar(copy, shots, kept, seen, over0, winner0, ts0, i)
      modifies this`bullets, this`gameOver, this`winner
      ensures BaseSoFar(copy, shots, kept', seen', over0, winner0, ts0, i + 1)
    {
      ShotsIndex(copy, i);
      BaseTurn(shots, i, base, kept, seen);
      var b := copy[i];
      ghost var hit := HitsBase(shots[i], base);
      seen' := seen || hit;
      kept' := kept + if hit then [] else [shots[i]];
      if base.Some? && Overlaps(b.Bounds(), base.value.Bounds()) {
        assert hit && kept' == kept;
        gameOver := true;
        winner := Some(BaseHitLabel);
        RemoveBullet(copy, i, kept);
      } else {
        assert !hit && kept' == kept + [shots[i]];
        KeepBullet(kept, copy, i, shots[i]);
      }
    }

    /** `check_collisions`: the three passes in their fixed order, each over the
        bullets the previous one left. */
    method CheckCollisions()
      requires Valid()
      modifies this`bullets, this`walls, this`tanks, this`gameOver, this`winner, tanks`hitPoints, tanks`isAlive
      ensures Valid()
      ensures Outcome(Shots(bullets), walls, Snaps(tanks), gameOver, winner)
              == Collide(old(Shots(bullets)), old(walls), old(Snaps(tanks)), base, old(gameOver), old(winner))
      ensures forall t :: t in tanks ==> t in old(tanks)
    {
      ghost var s0, w0, t0 := Shots(bullets), walls, Snaps(tanks);
      BulletWallPass();
      ghost var p1 := Shots(bullets);
      assert p1 == WallPass(s0, w0).0 && walls == WallPass(s0, w0).1;
      assert Snaps(tanks) == t0;
      BulletTankPass();
      ghost var p2, t2 := Shots(bullets), Snaps(tanks);
      assert p2 == TankPass(p1, t0).0 && t2 == TankPass(p1, t0).1;
      BulletBasePass();
      assert Snaps(tanks) == t2;
    }

    /** `check_game_over`; a game that has not started is left alone. */
    method CheckGameOver(started: bool)
      modifies this`gameOver, this`winner
      ensures !started ==> gameOver == old(gameOver) && winner == old(winner)
      ensures started ==> (gameOver, winner) == Verdict(HasEnemy(tanks), HasPlayer(tanks), old(gameOver), old(winner))
    {
      if !started {
        return;
      }
      var enemies := [];
      var players := [];
      var i := 0;
      while i < |tanks|
        invariant 0 <= i <= |tanks|
        invariant enemies == [] <==> !HasEnemy(tanks[..i])
        invariant players == [] <==> !HasPlayer(tanks[..i])
      {
        assert tanks[..i + 1] == tanks[..i] + [tanks[i]];
        if tanks[i].kind != Player {
          enemies := enemies + [tanks[i]];
        } else {
          players := players + [tanks[i]];
        }
        i := i + 1;
      }
      assert tanks[..i] == tanks;
      if enemies == [] {
        gameOver := true;
        winner := Some(PlayerLabel);
      }
      if players == [] {
        gameOver := true;
        winner := Some(EnemyLabel);
      }
    }
  }
}
