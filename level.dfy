/** The level setup of game_level.py: the character-grid map format (parsed from the
    already-read lines of a map file and rendered back to the text a map file holds),
    the deterministic walls of a random map, and tank spawning with a bounded number
    of non-overlapping placement attempts. Random draws are passed in. */
module Level {
  import opened Common
  import opened Objects
  import opened World

  /** Columns and rows of the saved grid: one cell per wall-sized square of the screen. */
  const GridCols := ScreenWidth / WallSize
  const GridRows := ScreenHeight / WallSize

  // ---------------------------------------------------------------------------
  // The map text format

  /** A tank as the map format sees it: its kind and its top-left corner. */
  datatype Placed = Placed(kind: TankType, x: int, y: int)

  function PlacedOf(t: Tank): Placed
    reads t`x, t`y
  {
    Placed(t.kind, t.x, t.y)
  }

  /** The map view of a tank list, in list order. */
  function Placements(ts: seq<Tank>): (r: seq<Placed>)
    reads ts`x, ts`y
    ensures |r| == |ts|
  {
    if ts == [] then [] else Placements(ts[..|ts| - 1]) + [PlacedOf(ts[|ts| - 1])]
  }

  /** The characters Python's `str.strip` removes from both ends of a line. */
  predicate IsSpace(ch: char) {
    var n := ch as int;
    (9 <= n <= 13) || (28 <= n <= 32) || n == 0x85 || n == 0xA0 || n == 0x1680
    || (0x2000 <= n <= 0x200A) || n == 0x2028 || n == 0x2029 || n == 0x202F
    || n == 0x205F || n == 0x3000
  }

  function StripEnd(s: string): (r: string)
    ensures r <= s
    ensures r == [] || !IsSpace(r[|r| - 1])
    ensures forall k :: |r| <= k < |s| ==> IsSpace(s[k])
  {
    if s == [] || !IsSpace(s[|s| - 1]) then s else StripEnd(s[..|s| - 1])
  }

  function StripStart(s: string): (r: string)
    ensures |r| <= |s| && r == s[|s| - |r|..]
    ensures r == [] || !IsSpace(r[0])
    ensures forall k :: 0 <= k < |s| - |r| ==> IsSpace(s[k])
  {
    if s == [] || !IsSpace(s[0]) then s else StripStart(s[1..])
  }

  /** `str.strip()`: the line without its leading and trailing whitespace. */
  function Strip(s: string): string {
    StripStart(StripEnd(s))
  }

  /** A line without whitespace is its own stripped form. */
  lemma StripPlain(s: string)
    requires forall k :: 0 <= k < |s| ==> !IsSpace(s[k])
    ensures Strip(s) == s
  {
    assert s == [] || !IsSpace(s[|s| - 1]);
  }

  /** What one map character stands for at column `c`, row `r`. */
  datatype Item = WallAt(w: Wall) | BaseAt(b: Base) | TankAt(p: Placed) | Blank

  /** The character reading of `load_map_from_file`: `#` soil, `@` metal, `B` the base,
      `P`, `E`, `C` the three tank kinds, anything else nothing. */
  function Decode(ch: char, c: int, r: int): (it: Item)
    ensures it.WallAt? ==> it.w.x == c * WallSize && it.w.y == r * WallSize
    ensures it.BaseAt? ==> it.b == Base(c * WallSize, r * WallSize)
    ensures it.TankAt? ==> it.p.x == c * WallSize && it.p.y == r * WallSize
  {
    var x, y := c * WallSize, r * WallSize;
    if ch == '#' then WallAt(Wall(x, y, Soil))
    else if ch == '@' then WallAt(Wall(x, y, Metal))
    else if ch == 'B' then BaseAt(Base(x, y))
    else if ch == 'P' then TankAt(Placed(Player, x, y))
    else if ch == 'E' then TankAt(Placed(EnemyNormal, x, y))
    else if ch == 'C' then TankAt(Placed(EnemyCommander, x, y))
    else Blank
  }

  function WallsOfItem(it: Item): seq<Wall> {
    if it.WallAt? then [it.w] else []
  }

  function TanksOfItem(it: Item): seq<Placed> {
    if it.TankAt? then [it.p] else []
  }

  /** The walls one stripped line adds, left to right. */
  function RowWalls(s: string, r: int): seq<Wall> {
    if s == [] then [] else RowWalls(s[..|s| - 1], r) + WallsOfItem(Decode(s[|s| - 1], |s| - 1, r))
  }

  /** The tanks one stripped line adds, left to right. */
  function RowTanks(s: string, r: int): seq<Placed> {
    if s == [] then [] else RowTanks(s[..|s| - 1], r) + TanksOfItem(Decode(s[|s| - 1], |s| - 1, r))
  }

  /** The base after one stripped line: its last `B`, or `prev` when it has none. */
  function RowBase(s: string, r: int, prev: Option<Base>): Option<Base> {
    if s == [] then prev
    else if s[|s| - 1] == 'B' then Some(Base((|s| - 1) * WallSize, r * WallSize))
    else RowBase(s[..|s| - 1], r, prev)
  }

  /** The walls of a whole map, in row-major order. */
  function MapWalls(lines: seq<string>): seq<Wall> {
    if lines == [] then [] else MapWalls(lines[..|lines| - 1]) + RowWalls(Strip(lines[|lines| - 1]), |lines| - 1)
  }

  /** The tanks of a whole map, in row-major order. */
  function MapTanks(lines: seq<string>): seq<Placed> {
    if lines == [] then [] else MapTanks(lines[..|lines| - 1]) + RowTanks(Strip(lines[|lines| - 1]), |lines| - 1)
  }

  /** The base after a whole map: the last `B` in row-major order, else `prev`. */
  function MapBase(lines: seq<string>, prev: Option<Base>): Option<Base> {
    if lines == [] then prev else RowBase(Strip(lines[|lines| - 1]), |lines| - 1, MapBase(lines[..|lines| - 1], prev))
  }

  /** The character at column `c` of the stripped row `r`, and `.` off the text. */
  function CharAt(lines: seq<string>, r: int, c: int): char {
    if 0 <= r < |lines| && 0 <= c < |Strip(lines[r])| then Strip(lines[r])[c] else '.'
  }

  /** The first wall of the list whose corner is exactly (x, y). */
  function FirstWallAt(ws: seq<Wall>, x: int, y: int): (r: Option<Wall>)
    ensures r.Some? ==> r.value in ws && r.value.x == x && r.value.y == y
  {
    if ws == [] then None
    else if ws[0].x == x && ws[0].y == y then Some(ws[0])
    else FirstWallAt(ws[1..], x, y)
  }

  /** The first tank of the list whose corner is exactly (x, y). */
  function FirstTankAt(ts: seq<Placed>, x: int, y: int): (r: Option<Placed>)
    ensures r.Some? ==> r.value in ts && r.value.x == x && r.value.y == y
  {
    if ts == [] then None
    else if ts[0].x == x && ts[0].y == y then Some(ts[0])
    else FirstTankAt(ts[1..], x, y)
  }

  lemma {:induction false} FirstWallAtAppend(a: seq<Wall>, b: seq<Wall>, x: int, y: int)
    ensures FirstWallAt(a + b, x, y) == if FirstWallAt(a, x, y).Some? then FirstWallAt(a, x, y) else FirstWallAt(b, x, y)
  {
    if a == [] {
      assert a + b == b;
    } else {
      assert (a + b)[1..] == a[1..] + b;
      FirstWallAtAppend(a[1..], b, x, y);
    }
  }

  lemma {:induction false} FirstTankAtAppend(a: seq<Placed>, b: seq<Placed>, x: int, y: int)
    ensures FirstTankAt(a + b, x, y) == if FirstTankAt(a, x, y).Some? then FirstTankAt(a, x, y) else FirstTankAt(b, x, y)
  {
    if a == [] {
      assert a + b == b;
    } else {
      assert (a + b)[1..] == a[1..] + b;
      FirstTankAtAppend(a[1..], b, x, y);
    }
  }

  /** The wall a character puts at its cell, if any. */
  function WallOf(ch: char, c: int, r: int): Option<Wall> {
    if Decode(ch, c, r).WallAt? then Some(Decode(ch, c, r).w) else None
  }

  /** The tank a character puts at its cell, if any. */
  function TankOf(ch: char, c: int, r: int): Option<Placed> {
    if Decode(ch, c, r).TankAt? then Some(Decode(ch, c, r).p) else None
  }

  /** The wall a line puts at cell (c, r0) is the one its character there decodes to. */
  lemma {:induction false} RowWallAt(s: string, r: int, c: int, r0: int)
    ensures FirstWallAt(RowWalls(s, r), c * WallSize, r0 * WallSize)
            == if r0 == r && 0 <= c < |s| then WallOf(s[c], c, r) else None
  {
    if s != [] {
      var s' := s[..|s| - 1];
      RowWallAt(s', r, c, r0);
      FirstWallAtAppend(RowWalls(s', r), WallsOfItem(Decode(s[|s| - 1], |s| - 1, r)), c * WallSize, r0 * WallSize);
    }
  }

  /** The tank a line puts at cell (c, r0) is the one its character there decodes to. */
  lemma {:induction false} RowTankAt(s: string, r: int, c: int, r0: int)
    ensures FirstTankAt(RowTanks(s, r), c * WallSize, r0 * WallSize)
            == if r0 == r && 0 <= c < |s| then TankOf(s[c], c, r) else None
  {
    if s != [] {
      var s' := s[..|s| - 1];
      RowTankAt(s', r, c, r0);
      FirstTankAtAppend(RowTanks(s', r), TanksOfItem(Decode(s[|s| - 1], |s| - 1, r)), c * WallSize, r0 * WallSize);
    }
  }

  /** A cell outside the text holds neither a wall nor a tank. */
  lemma BlankCell(c: int, r: int)
    ensures WallOf('.', c, r) == None && TankOf('.', c, r) == None
  {
  }

  /** Cutting off the last line changes no character of the lines before it. */
  lemma CharAtPrefix(lines: seq<string>, r: int, c: int)
    requires lines != []
    ensures CharAt(lines[..|lines| - 1], r, c) == if r < |lines| - 1 then CharAt(lines, r, c) else '.'
  {
  }

  /** The wall a parsed map has at cell (c, r) is exactly the one the character there
      decodes to: a `#` gives a soil wall, an `@` a metal wall, and every other
      character, or a cell off the text, no wall at all. */
  lemma {:induction false} MapWallAt(lines: seq<string>, c: int, r: int)
    ensures FirstWallAt(MapWalls(lines), c * WallSize, r * WallSize) == WallOf(CharAt(lines, r, c), c, r)
    decreases |lines|, 1
  {
    if lines != [] {
      if r < |lines| - 1 {
        MapWallAtBefore(lines, c, r);
      } else {
        MapWallAtLast(lines, c, r);
      }
    }
  }

  /** A cell above the last line: the last line adds nothing there. */
  lemma {:induction false} MapWallAtBefore(lines: seq<string>, c: int, r: int)
    requires lines != [] && r < |lines| - 1
    ensures FirstWallAt(MapWalls(lines), c * WallSize, r * WallSize) == WallOf(CharAt(lines, r, c), c, r)
    decreases |lines|, 0
  {
    var n := |lines| - 1;
    var s := Strip(lines[n]);
    FirstWallAtAppend(MapWalls(lines[..n]), RowWalls(s, n), c * WallSize, r * WallSize);
    RowWallAt(s, n, c, r);
    MapWallAt(lines[..n], c, r);
    CharAtPrefix(lines, r, c);
  }

  /** A cell on or below the last line: the lines before it add nothing there. */
  lemma {:induction false} MapWallAtLast(lines: seq<string>, c: int, r: int)
    requires lines != [] && r >= |lines| - 1
    ensures FirstWallAt(MapWalls(lines), c * WallSize, r * WallSize) == WallOf(CharAt(lines, r, c), c, r)
    decreases |lines|, 0
  {
    var n := |lines| - 1;
    var s := Strip(lines[n]);
    CharAtPrefix(lines, r, c);
    MapWallAt(lines[..n], c, r);
    BlankCell(c, r);
    RowWallAt(s, n, c, r);
    var ch := CharAt(lines, r, c);
    if r == n && 0 <= c < |s| {
      assert ch == s[c];
    } else {
      assert ch == '.';
    }
    FirstWallAtAppend(MapWalls(lines[..n]), RowWalls(s, n), c * WallSize, r * WallSize);
  }

  /** The tank a parsed map has at cell (c, r) is exactly the one the character there
      decodes to: `P`, `E` and `C` give a player, normal and commander tank. */
  lemma {:induction false} MapTankAt(lines: seq<string>, c: int, r: int)
    ensures FirstTankAt(MapTanks(lines), c * WallSize, r * WallSize) == TankOf(CharAt(lines, r, c), c, r)
    decreases |lines|, 1
  {
    if lines != [] {
      if r < |lines| - 1 {
        MapTankAtBefore(lines, c, r);
      } else {
        MapTankAtLast(lines, c, r);
      }
    }
  }

  /** A cell above the last line: the last line adds nothing there. */
  lemma {:induction false} MapTankAtBefore(lines: seq<string>, c: int, r: int)
    requires lines != [] && r < |lines| - 1
    ensures FirstTankAt(MapTanks(lines), c * WallSize, r * WallSize) == TankOf(CharAt(lines, r, c), c, r)
    decreases |lines|, 0
  {
    var n := |lines| - 1;
    var s := Strip(lines[n]);
    FirstTankAtAppend(MapTanks(lines[..n]), RowTanks(s, n), c * WallSize, r * WallSize);
    RowTankAt(s, n, c, r);
    MapTankAt(lines[..n], c, r);
    CharAtPrefix(lines, r, c);
  }

  /** A cell on or below the last line: the lines before it add nothing there. */
  lemma {:induction false} MapTankAtLast(lines: seq<string>, c: int, r: int)
    requires lines != [] && r >= |lines| - 1
    ensures FirstTankAt(MapTanks(lines), c * WallSize, r * WallSize) == TankOf(CharAt(lines, r, c), c, r)
    decreases |lines|, 0
  {
    var n := |lines| - 1;
    var s := Strip(lines[n]);
    CharAtPrefix(lines, r, c);
    MapTankAt(lines[..n], c, r);
    BlankCell(c, r);
    RowTankAt(s, n, c, r);
    var ch := CharAt(lines, r, c);
    if r == n && 0 <= c < |s| {
      assert ch == s[c];
    } else {
      assert ch == '.';
    }
    FirstTankAtAppend(MapTanks(lines[..n]), RowTanks(s, n), c * WallSize, r * WallSize);
  }

  lemma {:induction false} RowBaseNone(s: string, r: int, prev: Option<Base>)
    requires forall k :: 0 <= k < |s| ==> s[k] != 'B'
    ensures RowBase(s, r, prev) == prev
  {
    if s != [] {
      RowBaseNone(s[..|s| - 1], r, prev);
    }
  }

  lemma {:induction false} RowBaseLast(s: string, r: int, c: int, prev: Option<Base>)
    requires 0 <= c < |s| && s[c] == 'B'
    requires forall k :: c < k < |s| ==> s[k] != 'B'
    ensures RowBase(s, r, prev) == Some(Base(c * WallSize, r * WallSize))
  {
    if c < |s| - 1 {
      RowBaseLast(s[..|s| - 1], r, c, prev);
    }
  }

  /** No `B` at all: loading keeps the base the world already had. */
  lemma {:induction false} BaseKept(lines: seq<string>, prev: Option<Base>)
    requires forall r, c :: CharAt(lines, r, c) != 'B'
    ensures MapBase(lines, prev) == prev
  {
    if lines != [] {
      var n := |lines| - 1;
      forall r, c ensures CharAt(lines[..n], r, c) != 'B' {
        CharAtPrefix(lines, r, c);
      }
      BaseKept(lines[..n], prev);
      forall k | 0 <= k < |Strip(lines[n])| ensures Strip(lines[n])[k] != 'B' {
        assert CharAt(lines, n, k) != 'B';
      }
      RowBaseNone(Strip(lines[n]), n, MapBase(lines[..n], prev));
    }
  }

  /** The last `B` in row-major order wins: a `B` at (c, r) with none after it places
      the base at that cell. */
  lemma {:induction false} BaseLast(lines: seq<string>, prev: Option<Base>, r: int, c: int)
    requires CharAt(lines, r, c) == 'B'
    requires forall r', c' :: r < r' || (r == r' && c < c') ==> CharAt(lines, r', c') != 'B'
    ensures MapBase(lines, prev) == Some(Base(c * WallSize, r * WallSize))
  {
    var n := |lines| - 1;
    var last := Strip(lines[n]);
    if r == n {
      forall k | c < k < |last| ensures last[k] != 'B' {
        assert CharAt(lines, n, k) != 'B';
      }
      RowBaseLast(last, n, c, MapBase(lines[..n], prev));
    } else {
      forall k | 0 <= k < |last| ensures last[k] != 'B' {
        assert CharAt(lines, n, k) != 'B';
      }
      RowBaseNone(last, n, MapBase(lines[..n], prev));
      CharAtPrefix(lines, r, c);
      forall r', c' | r < r' || (r == r' && c < c') ensures CharAt(lines[..n], r', c') != 'B' {
        CharAtPrefix(lines, r', c');
      }
      BaseLast(lines[..n], prev, r, c);
    }
  }

  /** One more character of a line adds what it decodes to. */
  lemma RowSnoc(s: string, x: nat, r: int, prev: Option<Base>)
    requires x < |s|
    ensures RowWalls(s[..x + 1], r) == RowWalls(s[..x], r) + WallsOfItem(Decode(s[x], x, r))
    ensures RowTanks(s[..x + 1], r) == RowTanks(s[..x], r) + TanksOfItem(Decode(s[x], x, r))
    ensures RowBase(s[..x + 1], r, prev) == if s[x] == 'B' then Some(Base(x * WallSize, r * WallSize)) else RowBase(s[..x], r, prev)
  {
    assert s[..x + 1][..x] == s[..x];
  }

  /** One more line adds what its stripped characters decode to. */
  lemma MapSnoc(lines: seq<string>, y: nat, prev: Option<Base>)
    requires y < |lines|
    ensures MapWalls(lines[..y + 1]) == MapWalls(lines[..y]) + RowWalls(Strip(lines[y]), y)
    ensures MapTanks(lines[..y + 1]) == MapTanks(lines[..y]) + RowTanks(Strip(lines[y]), y)
    ensures MapBase(lines[..y + 1], prev) == RowBase(Strip(lines[y]), y, MapBase(lines[..y], prev))
  {
    assert lines[..y + 1][..y] == lines[..y];
  }

  /** How many characters of a line lie in `cs`. */
  function CountIn(s: string, cs: set<char>): nat {
    if s == [] then 0 else CountIn(s[..|s| - 1], cs) + (if s[|s| - 1] in cs then 1 else 0)
  }

  /** How many characters of the stripped lines lie in `cs`. */
  function MapCount(lines: seq<string>, cs: set<char>): nat {
    if lines == [] then 0 else MapCount(lines[..|lines| - 1], cs) + CountIn(Strip(lines[|lines| - 1]), cs)
  }

  /** The map character that stands for a wall of the given kind. */
  function MarkOf(kind: WallType): set<char> {
    if kind == Soil then {'#'} else if kind == Metal then {'@'} else {}
  }

  /** One character adds one wall of its kind or one tank, or nothing. */
  lemma ItemCount(ch: char, c: int, r: int, kind: WallType)
    ensures |OfKind(WallsOfItem(Decode(ch, c, r)), kind)| == if ch in MarkOf(kind) then 1 else 0
    ensures |TanksOfItem(Decode(ch, c, r))| == if ch in {'P', 'E', 'C'} then 1 else 0
  {
  }

  lemma {:induction false} RowWallCount(s: string, r: int, kind: WallType)
    ensures |OfKind(RowWalls(s, r), kind)| == CountIn(s, MarkOf(kind))
  {
    if s != [] {
      var s' := s[..|s| - 1];
      RowWallCount(s', r, kind);
      var it := Decode(s[|s| - 1], |s| - 1, r);
      OfKindAppend(RowWalls(s', r), WallsOfItem(it), kind);
      ItemCount(s[|s| - 1], |s| - 1, r, kind);
    }
  }

  lemma {:induction false} RowTankCount(s: string, r: int)
    ensures |RowTanks(s, r)| == CountIn(s, {'P', 'E', 'C'})
  {
    if s != [] {
      RowTankCount(s[..|s| - 1], r);
      ItemCount(s[|s| - 1], |s| - 1, r, Soil);
    }
  }

  lemma CountJoin(pre: seq<Wall>, walls: seq<Wall>, kind: WallType)
    ensures |OfKind(pre + walls, kind)| == |OfKind(pre, kind)| + |OfKind(walls, kind)|
  {
    OfKindAppend(pre, walls, kind);
  }

  lemma {:induction false} MapWallCount(lines: seq<string>, kind: WallType)
    ensures |OfKind(MapWalls(lines), kind)| == MapCount(lines, MarkOf(kind))
  {
    if lines != [] {
      var n := |lines| - 1;
      var row := Strip(lines[n]);
      MapWallCount(lines[..n], kind);
      RowWallCount(row, n, kind);
      CountJoin(MapWalls(lines[..n]), RowWalls(row, n), kind);
    }
  }

  lemma {:induction false} MapTankCount(lines: seq<string>)
    ensures |MapTanks(lines)| == MapCount(lines, {'P', 'E', 'C'})
  {
    if lines != [] {
      var n := |lines| - 1;
      MapTankCount(lines[..n]);
      RowTankCount(Strip(lines[n]), n);
    }
  }

  /** Parsing adds one soil wall per `#`, one metal wall per `@` and one tank per `P`,
      `E` or `C`; every other character adds nothing. */
  lemma MapCounts(lines: seq<string>)
    ensures |OfKind(MapWalls(lines), Soil)| == MapCount(lines, {'#'})
    ensures |OfKind(MapWalls(lines), Metal)| == MapCount(lines, {'@'})
    ensures |MapTanks(lines)| == MapCount(lines, {'P', 'E', 'C'})
  {
    MapWallCount(lines, Soil);
    MapWallCount(lines, Metal);
    MapTankCount(lines);
  }

  /** (x1, y1) comes before (x2, y2) in row-major order. */
  predicate RowMajorBefore(x1: int, y1: int, x2: int, y2: int) {
    y1 < y2 || (y1 == y2 && x1 < x2)
  }

  lemma {:induction false} RowTanksPlace(s: string, r: int)
    ensures forall k :: 0 <= k < |RowTanks(s, r)| ==>
              RowTanks(s, r)[k].y == r * WallSize && 0 <= RowTanks(s, r)[k].x < |s| * WallSize
    ensures RowMajor(RowTanks(s, r))
  {
    if s != [] {
      RowTanksPlace(s[..|s| - 1], r);
    }
  }

  /** Placements in strictly increasing row-major order. */
  predicate RowMajor(ps: seq<Placed>) {
    forall i, j :: 0 <= i < j < |ps| ==> RowMajorBefore(ps[i].x, ps[i].y, ps[j].x, ps[j].y)
  }

  /** Rows above `top` followed by an ordered row at `top` stay in row-major order. */
  lemma AppendRow(a: seq<Placed>, b: seq<Placed>, top: int)
    requires RowMajor(a) && RowMajor(b)
    requires forall k :: 0 <= k < |a| ==> a[k].y < top
    requires forall k :: 0 <= k < |b| ==> b[k].y == top
    ensures RowMajor(a + b)
  {
    forall i, j | 0 <= i < j < |a + b|
      ensures RowMajorBefore((a + b)[i].x, (a + b)[i].y, (a + b)[j].x, (a + b)[j].y)
    {
      if j < |a| {
        assert (a + b)[i] == a[i] && (a + b)[j] == a[j];
      } else if i < |a| {
        assert (a + b)[i] == a[i] && (a + b)[j] == b[j - |a|];
      } else {
        assert (a + b)[i] == b[i - |a|] && (a + b)[j] == b[j - |a|];
      }
    }
  }

  /** Parsed tanks come in row-major order of their cells, each one strictly after the
      one before it. */
  lemma {:induction false} MapTanksRowMajor(lines: seq<string>)
    ensures forall k :: 0 <= k < |MapTanks(lines)| ==> 0 <= MapTanks(lines)[k].y < |lines| * WallSize
    ensures RowMajor(MapTanks(lines))
  {
    if lines != [] {
      var n := |lines| - 1;
      MapTanksRowMajor(lines[..n]);
      RowTanksPlace(Strip(lines[n]), n);
      var a: seq<Placed>, b: seq<Placed> := MapTanks(lines[..n]), RowTanks(Strip(lines[n]), n);
      assert MapTanks(lines) == a + b;
      assert |lines| * WallSize == n * WallSize + WallSize;
      forall k | 0 <= k < |a + b|
        ensures 0 <= (a + b)[k].y < |lines| * WallSize
      {
        if k < |a| {
          assert (a + b)[k] == a[k];
        } else {
          assert (a + b)[k] == b[k - |a|];
        }
      }
      AppendRow(a, b, n * WallSize);
    }
  }

  // ---------------------------------------------------------------------------
  // Rendering

  function TankGlyph(k: TankType): char {
    match k
    case Player => 'P'
    case EnemyNormal => 'E'
    case EnemyCommander => 'C'
  }

  /** A wall of the unused base kind leaves the cell empty. */
  function WallGlyph(k: WallType): char {
    match k
    case Soil => '#'
    case Metal => '@'
    case BaseType => '.'
  }

  /** The character `save_map_to_file` writes for cell (c, r): the first tank there, else
      the base, else the first wall there, else `.`; only exact corners match. */
  function CellGlyph(ws: seq<Wall>, base: Option<Base>, ts: seq<Placed>, c: int, r: int): char {
    var x, y := c * WallSize, r * WallSize;
    var t := FirstTankAt(ts, x, y);
    if t.Some? then TankGlyph(t.value.kind)
    else if base.Some? && base.value.x == x && base.value.y == y then 'B'
    else
      var w := FirstWallAt(ws, x, y);
      if w.Some? then WallGlyph(w.value.kind) else '.'
  }

  function RenderRow(ws: seq<Wall>, base: Option<Base>, ts: seq<Placed>, r: int): (row: string)
    ensures |row| == GridCols
    ensures forall c :: 0 <= c < GridCols ==> row[c] == CellGlyph(ws, base, ts, c, r)
  {
    seq(GridCols, c => CellGlyph(ws, base, ts, c, r))
  }

  function RenderRows(ws: seq<Wall>, base: Option<Base>, ts: seq<Placed>): (rows: seq<string>)
    ensures |rows| == GridRows
    ensures forall r :: 0 <= r < GridRows ==> rows[r] == RenderRow(ws, base, ts, r)
  {
    seq(GridRows, r => RenderRow(ws, base, ts, r))
  }

  /** `'\n'.join(rows)`. */
  function JoinLines(rows: seq<string>): string {
    if rows == [] then []
    else if |rows| == 1 then rows[0]
    else JoinLines(rows[..|rows| - 1]) + "\n" + rows[|rows| - 1]
  }

  /** The text of the saved map. */
  function Render(ws: seq<Wall>, base: Option<Base>, ts: seq<Placed>): string {
    JoinLines(RenderRows(ws, base, ts))
  }

  /** Where column `c` of line `r` sits in lines of `GridCols` characters joined by
      newlines: each line takes `GridCols + 1 == 21` characters with its newline. */
  function Offset(r: int, c: int): int {
    r * 21 + c
  }

  /** Lines of one width, joined: line `r` occupies the `GridCols` characters from
      `r * (GridCols + 1)`, each followed by a newline except the last. */
  lemma {:induction false} JoinLinesAt(rows: seq<string>)
    requires rows != [] && forall r :: 0 <= r < |rows| ==> |rows[r]| == GridCols
    ensures |JoinLines(rows)| == |rows| * 21 - 1
    ensures forall r, c :: 0 <= r < |rows| && 0 <= c < GridCols ==> JoinLines(rows)[Offset(r, c)] == rows[r][c]
    ensures forall r :: 0 <= r < |rows| - 1 ==> JoinLines(rows)[Offset(r, GridCols)] == '\n'
  {
    assert GridCols + 1 == 21;
    if |rows| > 1 {
      var n := |rows| - 1;
      JoinLinesAt(rows[..n]);
      var front := JoinLines(rows[..n]);
      assert JoinLines(rows) == front + "\n" + rows[n];
      assert |front| == n * 21 - 1;
      forall r, c | 0 <= r < |rows| && 0 <= c < GridCols
        ensures JoinLines(rows)[Offset(r, c)] == rows[r][c]
      {
        if r < n {
          assert rows[..n][r] == rows[r];
        }
      }
    }
  }

  /** The saved text has `GridRows` lines of `GridCols` characters, one per cell as
      `CellGlyph` says, joined by newlines with none after the last. */
  lemma RenderShape(ws: seq<Wall>, base: Option<Base>, ts: seq<Placed>)
    ensures var text := Render(ws, base, ts);
            && |text| == GridRows * (GridCols + 1) - 1
            && (forall r, c :: 0 <= r < GridRows && 0 <= c < GridCols ==>
                  text[Offset(r, c)] == CellGlyph(ws, base, ts, c, r))
            && (forall r :: 0 <= r < GridRows - 1 ==> text[Offset(r, GridCols)] == '\n')
  {
    JoinLinesAt(RenderRows(ws, base, ts));
  }

  /** A map text in the saved format: `GridRows` lines of `GridCols` characters, each
      one of the seven the format uses. */
  predicate MapText(g: seq<string>) {
    |g| == GridRows
    && forall r :: 0 <= r < |g| ==> |g[r]| == GridCols
                                    && forall c :: 0 <= c < GridCols ==> g[r][c] in {'.', '#', '@', 'B', 'P', 'E', 'C'}
  }

  /** The encoding is the same both ways: the character written for what a character
      loads as is that character. */
  lemma GlyphRoundTrip(ch: char, c: int, r: int)
    ensures Decode(ch, c, r).WallAt? ==> WallGlyph(Decode(ch, c, r).w.kind) == ch
    ensures Decode(ch, c, r).TankAt? ==> TankGlyph(Decode(ch, c, r).p.kind) == ch
    ensures Decode(ch, c, r).BaseAt? <==> ch == 'B'
    ensures Decode(ch, c, r).Blank? <==> ch !in {'#', '@', 'B', 'P', 'E', 'C'}
  {
  }

  /** In a map with at most one `B`, loaded into a world without a base, the base
      sits at a cell exactly when that cell holds the `B`. */
  lemma BaseCell(g: seq<string>, r: int, c: int)
    requires forall r1, c1, r2, c2 :: CharAt(g, r1, c1) == 'B' && CharAt(g, r2, c2) == 'B' ==> r1 == r2 && c1 == c2
    ensures MapBase(g, None) == Some(Base(c * WallSize, r * WallSize)) <==> CharAt(g, r, c) == 'B'
  {
    if exists r0, c0 :: CharAt(g, r0, c0) == 'B' {
      var r0, c0 :| CharAt(g, r0, c0) == 'B';
      BaseLast(g, None, r0, c0);
    } else {
      BaseKept(g, None);
    }
  }

  /** One cell of a loaded saved-format map renders as the character it was loaded from. */
  lemma LoadedCell(g: seq<string>, r: int, c: int)
    requires MapText(g) && 0 <= r < GridRows && 0 <= c < GridCols && Strip(g[r]) == g[r]
    requires MapBase(g, None) == Some(Base(c * WallSize, r * WallSize)) <==> g[r][c] == 'B'
    ensures CellGlyph(MapWalls(g), MapBase(g, None), MapTanks(g), c, r) == g[r][c]
  {
    assert CharAt(g, r, c) == g[r][c];
    MapTankAt(g, c, r);
    MapWallAt(g, c, r);
    GlyphRoundTrip(g[r][c], c, r);
  }

  lemma LoadedRow(g: seq<string>, r: int)
    requires MapText(g) && 0 <= r < GridRows
    requires forall r1, c1, r2, c2 :: CharAt(g, r1, c1) == 'B' && CharAt(g, r2, c2) == 'B' ==> r1 == r2 && c1 == c2
    ensures RenderRow(MapWalls(g), MapBase(g, None), MapTanks(g), r) == g[r]
  {
    StripPlain(g[r]);
    forall c | 0 <= c < GridCols ensures CellGlyph(MapWalls(g), MapBase(g, None), MapTanks(g), c, r) == g[r][c] {
      BaseCell(g, r, c);
      LoadedCell(g, r, c);
    }
  }

  /** Loading a saved-format map with at most one `B` into a world without a base, then
      saving it, gives back the same text. */
  lemma LoadThenSave(g: seq<string>)
    requires MapText(g)
    requires forall r1, c1, r2, c2 :: CharAt(g, r1, c1) == 'B' && CharAt(g, r2, c2) == 'B' ==> r1 == r2 && c1 == c2
    ensures Render(MapWalls(g), MapBase(g, None), MapTanks(g)) == JoinLines(g)
  {
    var ws, base, ts := MapWalls(g), MapBase(g, None), MapTanks(g);
    forall r | 0 <= r < GridRows ensures RenderRows(ws, base, ts)[r] == g[r] {
      LoadedRow(g, r);
    }
    assert RenderRows(ws, base, ts) == g;
  }

  // ---------------------------------------------------------------------------
  // The random map and tank spawning

  /** `generate_random_map`'s edge walls: top and bottom for every column, then left and
      right for every row, all metal. */
  function TopBottom(n: nat): seq<Wall> {
    if n == 0 then []
    else TopBottom(n - 1) + [Wall((n - 1) * WallSize, 0, Metal), Wall((n - 1) * WallSize, ScreenHeight - WallSize, Metal)]
  }

  function Sides(n: nat): seq<Wall> {
    if n == 0 then []
    else Sides(n - 1) + [Wall(0, (n - 1) * WallSize, Metal), Wall(ScreenWidth - WallSize, (n - 1) * WallSize, Metal)]
  }

  function Border(): seq<Wall> {
    TopBottom(GridCols) + Sides(GridRows)
  }

  /** A random interior cell: `randint(2, cells - 3)` on each axis. */
  predicate WallDraw(d: (int, int)) {
    2 <= d.0 <= GridCols - 3 && 2 <= d.1 <= GridRows - 3
  }

  /** The random walls of one kind, one per drawn cell, in draw order. */
  function Scatter(ds: seq<(int, int)>, kind: WallType): seq<Wall> {
    if ds == [] then []
    else Scatter(ds[..|ds| - 1], kind) + [Wall(ds[|ds| - 1].0 * WallSize, ds[|ds| - 1].1 * WallSize, kind)]
  }

  /** Where `generate_random_map` puts the base: the cell left of the middle column,
      three rows up from the bottom. */
  const BaseX := (GridCols / 2 - 1) * WallSize
  const BaseY := ScreenHeight - WallSize * 3

  const GuardDx: seq<int> := [-1, 0, 1]
  const GuardDy: seq<int> := [-1, 0]

  /** The soil walls one column offset puts around the base, skipping the base cell. */
  function GuardColumn(dx: int, dys: seq<int>): seq<Wall> {
    if dys == [] then []
    else
      var dy := dys[|dys| - 1];
      GuardColumn(dx, dys[..|dys| - 1]) + (if dx == 0 && dy == 0 then [] else [Wall(BaseX + dx * WallSize, BaseY + dy * WallSize, Soil)])
  }

  function Guard(dxs: seq<int>, dys: seq<int>): seq<Wall> {
    if dxs == [] then [] else Guard(dxs[..|dxs| - 1], dys) + GuardColumn(dxs[|dxs| - 1], dys)
  }

  /** One more step of the inner guard loop: a row offset adds its wall unless it is
      the base's own cell. */
  lemma GuardColumnSnoc(dx: int, dys: seq<int>, j: nat)
    requires j < |dys|
    ensures GuardColumn(dx, dys[..j + 1]) == GuardColumn(dx, dys[..j])
              + (if dx == 0 && dys[j] == 0 then [] else [Wall(BaseX + dx * WallSize, BaseY + dys[j] * WallSize, Soil)])
  {
    assert dys[..j + 1][..j] == dys[..j];
  }

  /** One more step of the outer guard loop adds a whole column. */
  lemma GuardSnoc(dxs: seq<int>, i: nat, dys: seq<int>)
    requires i < |dxs|
    ensures Guard(dxs[..i + 1], dys) == Guard(dxs[..i], dys) + GuardColumn(dxs[i], dys)
  {
    assert dxs[..i + 1][..i] == dxs[..i];
  }

  lemma {:induction false} TopBottomHas(n: nat)
    ensures forall w :: w in TopBottom(n) ==> w.kind == Metal && (w.y == 0 || w.y == ScreenHeight - WallSize)
    ensures forall x :: 0 <= x < n * WallSize && x % WallSize == 0 ==>
              Wall(x, 0, Metal) in TopBottom(n) && Wall(x, ScreenHeight - WallSize, Metal) in TopBottom(n)
  {
    if n > 0 {
      TopBottomHas(n - 1);
    }
  }

  lemma {:induction false} SidesHas(n: nat)
    ensures forall w :: w in Sides(n) ==> w.kind == Metal && (w.x == 0 || w.x == ScreenWidth - WallSize)
    ensures forall y :: 0 <= y < n * WallSize && y % WallSize == 0 ==>
              Wall(0, y, Metal) in Sides(n) && Wall(ScreenWidth - WallSize, y, Metal) in Sides(n)
  {
    if n > 0 {
      SidesHas(n - 1);
    }
  }

  /** The edge walls are all metal and on the screen's edge, and every wall-sized step
      along each of the four edges has one. */
  lemma BorderEncloses()
    ensures forall w :: w in Border() ==>
              w.kind == Metal && (w.x == 0 || w.x == ScreenWidth - WallSize || w.y == 0 || w.y == ScreenHeight - WallSize)
    ensures forall x :: 0 <= x < ScreenWidth && x % WallSize == 0 ==>
              Wall(x, 0, Metal) in Border() && Wall(x, ScreenHeight - WallSize, Metal) in Border()
    ensures forall y :: 0 <= y < ScreenHeight && y % WallSize == 0 ==>
              Wall(0, y, Metal) in Border() && Wall(ScreenWidth - WallSize, y, Metal) in Border()
  {
    TopBottomHas(GridCols);
    SidesHas(GridRows);
  }

  lemma {:induction false} ScatterInside(ds: seq<(int, int)>, kind: WallType)
    requires forall k :: 0 <= k < |ds| ==> WallDraw(ds[k])
    ensures forall w :: w in Scatter(ds, kind) ==>
              w.kind == kind && 2 * WallSize <= w.x <= ScreenWidth - 3 * WallSize
              && 2 * WallSize <= w.y <= ScreenHeight - 3 * WallSize
  {
    if ds != [] {
      ScatterInside(ds[..|ds| - 1], kind);
    }
  }

  /** Random walls never overlap an edge wall: they are drawn one cell clear of it. */
  lemma ScatterClearOfBorder(ds: seq<(int, int)>, kind: WallType)
    requires forall k :: 0 <= k < |ds| ==> WallDraw(ds[k])
    ensures forall w, b :: w in Scatter(ds, kind) && b in Border() ==> !Overlaps(w.Bounds(), b.Bounds())
  {
    ScatterInside(ds, kind);
    BorderEncloses();
  }

  /** The base's guard: soil walls on the cells left and right of the base and the three
      cells above it, and none on the base itself. */
  lemma GuardSurrounds()
    ensures Guard(GuardDx, GuardDy) == [Wall(BaseX - WallSize, BaseY - WallSize, Soil), Wall(BaseX - WallSize, BaseY, Soil),
                                        Wall(BaseX, BaseY - WallSize, Soil),
                                        Wall(BaseX + WallSize, BaseY - WallSize, Soil), Wall(BaseX + WallSize, BaseY, Soil)]
    ensures BaseX == 360 && BaseY == 480
    ensures forall w :: w in Guard(GuardDx, GuardDy) ==> w != Wall(BaseX, BaseY, Soil) && w.kind == Soil
  {
    GuardColumnIs(-1);
    GuardColumnIs(0);
    GuardColumnIs(1);
    assert GuardDx[..2] == [-1, 0] && GuardDx[..2][..1] == [-1] && GuardDx[..2][..1][..0] == [];
  }

  /** The walls one column offset puts: above and beside the base, or only above it in
      the base's own column. */
  lemma GuardColumnIs(dx: int)
    ensures GuardColumn(dx, GuardDy)
            == if dx == 0 then [Wall(BaseX, BaseY - WallSize, Soil)]
               else [Wall(BaseX + dx * WallSize, BaseY - WallSize, Soil), Wall(BaseX + dx * WallSize, BaseY, Soil)]
  {
    assert GuardDy[..1] == [-1] && GuardDy[..1][..0] == [];
    assert GuardColumn(dx, [-1]) == [Wall(BaseX + dx * WallSize, BaseY - WallSize, Soil)];
    assert GuardColumn(dx, GuardDy) == GuardColumn(dx, [-1])
             + (if dx == 0 then [] else [Wall(BaseX + dx * WallSize, BaseY, Soil)]);
  }

  /** The settings `spawn_tanks` and `spawn_enemy_tank` copy onto a new tank. */
  datatype TankSettings = TankSettings(speed: int, shotCooldown: int, visionRange: int, hitPoints: int,
                                       decisionInterval: int)

  const MaxAttempts := 50

  /** One placement attempt: `randint(1, cells - 3)` columns and `randint(1, 8)` rows. */
  predicate SpawnDraw(d: (int, int)) {
    1 <= d.0 <= GridCols - 3 && 1 <= d.1 <= 8
  }

  /** Two corners closer than a tank on both axes. */
  predicate Near(x1: int, y1: int, x2: int, y2: int) {
    Abs(x1 - x2) < TankSize && Abs(y1 - y2) < TankSize
  }

  /** No tank of the list is near (x, y). */
  predicate ClearOf(x: int, y: int, ts: seq<Tank>)
    reads ts`x, ts`y
  {
    forall k :: 0 <= k < |ts| ==> !Near(ts[k].x, ts[k].y, x, y)
  }

  /** The first attempt whose spot is clear of every tank, as a corner. */
  function FirstClear(ds: seq<(int, int)>, ts: seq<Tank>): (r: Option<(int, int)>)
    reads ts`x, ts`y
    ensures r.Some? ==> ClearOf(r.value.0, r.value.1, ts)
  {
    if ds == [] then None
    else if ClearOf(ds[0].0 * WallSize, ds[0].1 * WallSize, ts) then Some((ds[0].0 * WallSize, ds[0].1 * WallSize))
    else FirstClear(ds[1..], ts)
  }

  /** A spot is found exactly when some attempt is clear; the spot found is the first
      clear attempt, so no tank is near it. */
  lemma {:induction false} FirstClearSpec(ds: seq<(int, int)>, ts: seq<Tank>)
    ensures FirstClear(ds, ts).None? <==> forall k :: 0 <= k < |ds| ==> !ClearOf(ds[k].0 * WallSize, ds[k].1 * WallSize, ts)
    ensures FirstClear(ds, ts).Some? ==>
              exists k :: 0 <= k < |ds| && FirstClear(ds, ts).value == (ds[k].0 * WallSize, ds[k].1 * WallSize)
                          && ClearOf(ds[k].0 * WallSize, ds[k].1 * WallSize, ts)
                          && forall j :: 0 <= j < k ==> !ClearOf(ds[j].0 * WallSize, ds[j].1 * WallSize, ts)
  {
    if ds != [] && !ClearOf(ds[0].0 * WallSize, ds[0].1 * WallSize, ts) {
      FirstClearSpec(ds[1..], ts);
      assert forall k :: 1 <= k < |ds| ==> ds[k] == ds[1..][k - 1];
      if FirstClear(ds, ts).Some? {
        var k :| 0 <= k < |ds[1..]| && FirstClear(ds, ts).value == (ds[1..][k].0 * WallSize, ds[1..][k].1 * WallSize)
                 && ClearOf(ds[1..][k].0 * WallSize, ds[1..][k].1 * WallSize, ts)
                 && forall j :: 0 <= j < k ==> !ClearOf(ds[1..][j].0 * WallSize, ds[1..][j].1 * WallSize, ts);
        assert ds[k + 1] == ds[1..][k];
      }
    }
  }

  /** Every tank from index `from` on is not near any tank before it. */
  ghost predicate SpreadFrom(ts: seq<Tank>, from: int)
    reads ts`x, ts`y
  {
    forall i, j :: 0 <= i < j < |ts| && from <= j ==> !Near(ts[i].x, ts[i].y, ts[j].x, ts[j].y)
  }

  /** A freshly built tank of `kind` at `spot` with the enemy settings applied. */
  ghost predicate EnemyBuilt(t: Tank, kind: TankType, spot: (int, int), s: TankSettings)
    reads t
  {
    && t.kind == kind && t.x == spot.0 && t.y == spot.1 && t.direction == Up && t.isAlive
    && t.speed == s.speed && t.shotCooldown == s.shotCooldown && t.visionRange == s.visionRange
    && t.hitPoints == s.hitPoints && t.aiDecisionInterval == s.decisionInterval && t.lastShotTime == 0
  }

  /** A corner inside the enemy spawn zone: on the grid, columns 1 to cells - 3, rows 1 to 8. */
  predicate SpawnSpot(x: int, y: int) {
    && WallSize <= x <= (GridCols - 3) * WallSize && x % WallSize == 0
    && WallSize <= y <= 8 * WallSize && y % WallSize == 0
  }

  /** A drawn cell scaled to pixels lies in the spawn zone. */
  lemma SpawnDrawSpot(d: (int, int))
    requires SpawnDraw(d)
    ensures SpawnSpot(d.0 * WallSize, d.1 * WallSize)
  {
    assert d.0 * WallSize == d.0 * 40 && d.1 * WallSize == d.1 * 40;
  }

  /** An enemy as `spawn_enemy_tank` leaves it: built with the kind's settings at a
      spot of the spawn zone. */
  ghost predicate Enemy(t: Tank, kind: TankType, s: TankSettings)
    reads t
  {
    EnemyBuilt(t, kind, (t.x, t.y), s) && SpawnSpot(t.x, t.y)
  }

  /** The player tank as `spawn_tanks` leaves it: built at the player's spot with the
      player settings applied and the constructor's defaults elsewhere. */
  ghost predicate PlayerBuilt(t: Tank, s: TankSettings)
    reads t
  {
    && t.kind == Player && t.x == PlayerX && t.y == PlayerY && t.direction == Up && t.isAlive
    && t.speed == s.speed && t.shotCooldown == s.shotCooldown && t.visionRange == s.visionRange
    && t.hitPoints == s.hitPoints && t.aiDecisionInterval == 1000 && t.lastShotTime == 0
  }

  /** Appending a tank clear of every tank keeps the spread from any index up to the
      old length. */
  lemma SpreadSnoc(ts: seq<Tank>, t: Tank, from: int)
    requires from <= |ts| && SpreadFrom(ts, from) && ClearOf(t.x, t.y, ts)
    ensures SpreadFrom(ts + [t], from)
  {
    var us := ts + [t];
    forall i, j | 0 <= i < j < |us| && from <= j
      ensures !Near(us[i].x, us[i].y, us[j].x, us[j].y)
    {
      if j < |ts| {
        assert us[i] == ts[i] && us[j] == ts[j];
      } else {
        assert us[i] == ts[i] && us[j] == t;
      }
    }
  }

  /** The random draws and the configured settings one `start_level` consumes: the
      soil and metal wall cells, the player's and each enemy kind's settings, and fifty
      placement draws per commander and per normal tank (the configured counts). */
  datatype LevelDraws = LevelDraws(soil: seq<(int, int)>, metal: seq<(int, int)>,
                                   player: TankSettings, commander: TankSettings, normal: TankSettings,
                                   commanders: seq<seq<(int, int)>>, normals: seq<seq<(int, int)>>)

  /** Every wall cell is an interior cell, and each enemy gets fifty placement draws,
      all in `randint`'s range. */
  predicate DrawsOk(d: LevelDraws) {
    && (forall k :: 0 <= k < |d.soil| ==> WallDraw(d.soil[k]))
    && (forall k :: 0 <= k < |d.metal| ==> WallDraw(d.metal[k]))
    && (forall k :: 0 <= k < |d.commanders| ==> |d.commanders[k]| == MaxAttempts)
    && (forall k, p :: 0 <= k < |d.commanders| && p in d.commanders[k] ==> SpawnDraw(p))
    && (forall k :: 0 <= k < |d.normals| ==> |d.normals[k]| == MaxAttempts)
    && (forall k, p :: 0 <= k < |d.normals| && p in d.normals[k] ==> SpawnDraw(p))
  }

  /** The enemies after the player: the commanders that found a place, up to index
      `mid`, then the normal tanks that did, at most one per draw list of each kind. */
  ghost predicate EnemiesFrom(ts: seq<Tank>, mid: int, d: LevelDraws)
    reads ts
  {
    && 1 <= mid <= |ts| && mid <= 1 + |d.commanders| && |ts| - mid <= |d.normals|
    && (forall k :: 1 <= k < mid ==> Enemy(ts[k], EnemyCommander, d.commander))
    && (forall k :: mid <= k < |ts| ==> Enemy(ts[k], EnemyNormal, d.normal))
  }

  /** The world as `start_level` leaves it: the random map with its border, scattered
      walls, base and guard; no bullets; the player first, then the commanders, then the
      normal tanks, each enemy clear of the tanks before it; the game running with no
      winner. */
  ghost predicate Started(g: Game, d: LevelDraws)
    reads g, g.tanks
  {
    && g.walls == Border() + Scatter(d.soil, Soil) + Scatter(d.metal, Metal) + Guard(GuardDx, GuardDy)
    && g.bullets == [] && g.base == Some(Base(BaseX, BaseY))
    && !g.gameOver && g.winner == None
    && 1 <= |g.tanks| <= 1 + |d.commanders| + |d.normals|
    && PlayerBuilt(g.tanks[0], d.player)
    && (exists mid :: EnemiesFrom(g.tanks, mid, d))
    && SpreadFrom(g.tanks, 1)
    && g.Valid()
  }

  /** Where `spawn_tanks` puts the player: centred at the bottom, two tank heights up. */
  const PlayerX := ScreenWidth / 2 - TankSize / 2
  const PlayerY := ScreenHeight - TankSize * 2

  class GameLevel {
    const game: Game
    var level: int
    var playerCount: int

    constructor (g: Game)
      ensures game == g && level == 1 && playerCount == 1
    {
      game := g;
      level := 1;
      playerCount := 1;
    }

    /** The parsing loop of `load_map_from_file` over the lines already read: walls,
        tanks and bullets are cleared, the base is not; each character adds what it
        decodes to, row by row and left to right. */
    method LoadMap(lines: seq<string>)
      modifies game`walls, game`tanks, game`bullets, game`base
      ensures game.walls == MapWalls(lines)
      ensures Placements(game.tanks) == MapTanks(lines)
      ensures game.base == MapBase(lines, old(game.base))
      ensures game.bullets == [] && game.Valid()
    {
      ghost var base0 := game.base;
      game.walls, game.tanks, game.bullets := [], [], [];
      var y := 0;
      while y < |lines|
        invariant 0 <= y <= |lines|
        invariant Loaded(lines[..y], base0) && game.bullets == []
      {
        LoadLine(lines, y, base0);
        y := y + 1;
      }
      assert lines[..y] == lines;
    }

    /** The game holds what `lines` decode to, over a base that was `base0` before. */
    ghost predicate Loaded(lines: seq<string>, base0: Option<Base>)
      reads game, game.tanks
    {
      && game.walls == MapWalls(lines)
      && Placements(game.tanks) == MapTanks(lines)
      && game.base == MapBase(lines, base0)
      && Distinct(game.tanks)
    }

    /** One turn of the parsing loop: the state built from the first `y` lines becomes
        the state built from the first `y + 1`. */
    method LoadLine(lines: seq<string>, y: nat, ghost base0: Option<Base>)
      requires y < |lines| && Loaded(lines[..y], base0)
      modifies game`walls, game`tanks, game`base
      ensures Loaded(lines[..y + 1], base0)
    {
      MapSnoc(lines, y, base0);
      LoadRow(Strip(lines[y]), y);
    }

    /** One line of the parsing loop. */
    method LoadRow(row: string, y: nat)
      requires Distinct(game.tanks)
      modifies game`walls, game`tanks, game`base
      ensures game.walls == old(game.walls) + RowWalls(row, y)
      ensures Placements(game.tanks) == old(Placements(game.tanks)) + RowTanks(row, y)
      ensures game.base == RowBase(row, y, old(game.base))
      ensures Distinct(game.tanks)
    {
      ghost var walls0, placed0, base0 := game.walls, Placements(game.tanks), game.base;
      var x := 0;
      while x < |row|
        invariant 0 <= x <= |row|
        invariant game.walls == walls0 + RowWalls(row[..x], y)
        invariant Placements(game.tanks) == placed0 + RowTanks(row[..x], y)
        invariant game.base == RowBase(row[..x], y, base0)
        invariant Distinct(game.tanks)
      {
        RowSnoc(row, x, y, base0);
        LoadCell(row[x], x, y);
        AppendAssoc(placed0, RowTanks(row[..x], y), TanksOfItem(Decode(row[x], x, y)));
        AppendAssoc(walls0, RowWalls(row[..x], y), WallsOfItem(Decode(row[x], x, y)));
        x := x + 1;
      }
      assert row[..x] == row;
    }

    /** One character of the parsing loop: a wall, the base or a new tank, or nothing. */
    method LoadCell(ch: char, x: nat, y: nat)
      requires Distinct(game.tanks)
      modifies game`walls, game`tanks, game`base
      ensures game.walls == old(game.walls) + WallsOfItem(Decode(ch, x, y))
      ensures Placements(game.tanks) == old(Placements(game.tanks)) + TanksOfItem(Decode(ch, x, y))
      ensures game.base == if ch == 'B' then Some(Base(x * WallSize, y * WallSize)) else old(game.base)
      ensures Distinct(game.tanks)
    {
      match Decode(ch, x, y) {
        case WallAt(w) =>
          game.walls := game.walls + [w];
        case BaseAt(b) =>
          game.base := Some(b);
        case TankAt(p) =>
          PlaceTank(p);
        case Blank =>
      }
    }

    /** A new tank of the placed kind at the placed corner, appended to the list. */
    method PlaceTank(p: Placed)
      requires Distinct(game.tanks)
      modifies game`tanks
      ensures |game.tanks| == |old(game.tanks)| + 1 && game.tanks[..|old(game.tanks)|] == old(game.tanks)
      ensures Distinct(game.tanks) && Placements(game.tanks) == old(Placements(game.tanks)) + [p]
      ensures var t := game.tanks[|old(game.tanks)|]; fresh(t) && t.Healthy() && t.direction == Up
    {
      ghost var before := Placements(game.tanks);
      var t := new Tank(p.x, p.y, p.kind, Up);
      assert Placements(game.tanks) == before;
      AppendTank(t);
    }

    /** `tanks.append(t)` for a tank not yet in the list. */
    method AppendTank(t: Tank)
      requires t !in game.tanks && Distinct(game.tanks)
      modifies game`tanks
      ensures game.tanks == old(game.tanks) + [t] && Distinct(game.tanks)
      ensures Placements(game.tanks) == old(Placements(game.tanks)) + [PlacedOf(t)]
    {
      DistinctSnoc(game.tanks, t);
      game.tanks := game.tanks + [t];
      assert game.tanks[..|game.tanks| - 1] == old(game.tanks);
    }
  
    /** `generate_random_map`: clear the lists, put metal walls along the four edges,
        the drawn soil and metal walls, the base, and its soil guard. */
    method GenerateRandomMap(soil: seq<(int, int)>, metal: seq<(int, int)>)
      modifies game`walls, game`tanks, game`bullets, game`base
      ensures game.walls == Border() + Scatter(soil, Soil) + Scatter(metal, Metal) + Guard(GuardDx, GuardDy)
      ensures game.tanks == [] && game.bullets == [] && game.base == Some(Base(BaseX, BaseY))
      ensures game.Valid()
    {
      game.walls, game.tanks, game.bullets := [], [], [];
      AddBorder();
      assert game.walls == Border();
      AddScattered(soil, Soil);
      AddScattered(metal, Metal);
      game.base := Some(Base(BaseX, BaseY));
      AddGuard();
    }

    /** The two edge loops: top and bottom walls per column, then left and right per row. */
    method AddBorder()
      modifies game`walls
      ensures game.walls == old(game.walls) + Border()
    {
      for c := 0 to GridCols
        invariant game.walls == old(game.walls) + TopBottom(c)
      {
        game.walls := game.walls + [Wall(c * WallSize, 0, Metal), Wall(c * WallSize, ScreenHeight - WallSize, Metal)];
      }
      for r := 0 to GridRows
        invariant game.walls == old(game.walls) + TopBottom(GridCols) + Sides(r)
      {
        game.walls := game.walls + [Wall(0, r * WallSize, Metal), Wall(ScreenWidth - WallSize, r * WallSize, Metal)];
      }
    }

    /** The guard loops over the column and row offsets, skipping the base's own cell. */
    method AddGuard()
      modifies game`walls
      ensures game.walls == old(game.walls) + Guard(GuardDx, GuardDy)
    {
      var dxs := GuardDx;
      for i := 0 to |dxs|
        invariant game.walls == old(game.walls) + Guard(dxs[..i], GuardDy)
      {
        GuardSnoc(dxs, i, GuardDy);
        AddGuardColumn(dxs[i]);
      }
      assert dxs[..|dxs|] == dxs;
    }

    /** The inner guard loop for one column offset. */
    method AddGuardColumn(dx: int)
      modifies game`walls
      ensures game.walls == old(game.walls) + GuardColumn(dx, GuardDy)
    {
      var dys := GuardDy;
      for j := 0 to |dys|
        invariant game.walls == old(game.walls) + GuardColumn(dx, dys[..j])
      {
        var wx, wy := BaseX + dx * WallSize, BaseY + dys[j] * WallSize;
        GuardColumnSnoc(dx, dys, j);
        if dx == 0 && dys[j] == 0 {
          continue;
        }
        game.walls := game.walls + [Wall(wx, wy, Soil)];
      }
      assert dys[..|dys|] == dys;
    }

    /** The loop adding one wall of `kind` per drawn cell. */
    method AddScattered(ds: seq<(int, int)>, kind: WallType)
      modifies game`walls
      ensures game.walls == old(game.walls) + Scatter(ds, kind)
    {
      for k := 0 to |ds|
        invariant game.walls == old(game.walls) + Scatter(ds[..k], kind)
      {
        assert ds[..k + 1][..k] == ds[..k];
        game.walls := game.walls + [Wall(ds[k].0 * WallSize, ds[k].1 * WallSize, kind)];
      }
      assert ds[..|ds|] == ds;
    }

    /** The overlap test of `spawn_enemy_tank`: no tank in the list is near (x, y). */
    method IsClear(x: int, y: int) returns (ok: bool)
      ensures ok == ClearOf(x, y, game.tanks)
    {
      for k := 0 to |game.tanks|
        invariant forall j :: 0 <= j < k ==> !Near(game.tanks[j].x, game.tanks[j].y, x, y)
      {
        var t := game.tanks[k];
        if Abs(t.x - x) < TankSize && Abs(t.y - y) < TankSize {
          return false;
        }
      }
      return true;
    }

    /** `spawn_enemy_tank`: up to fifty attempts; the first spot clear of every tank gets
        a new tank with the kind's settings, and if none is clear nothing changes. */
    method SpawnEnemyTank(kind: TankType, s: TankSettings, draws: seq<(int, int)>)
      requires |draws| == MaxAttempts && Distinct(game.tanks)
      modifies game`tanks
      ensures Distinct(game.tanks)
      ensures var spot := old(FirstClear(draws, game.tanks));
              && (spot.None? ==> game.tanks == old(game.tanks))
              && (spot.Some? ==> && |game.tanks| == |old(game.tanks)| + 1
                                 && game.tanks[..|old(game.tanks)|] == old(game.tanks)
                                 && fresh(game.tanks[|old(game.tanks)|])
                                 && EnemyBuilt(game.tanks[|old(game.tanks)|], kind, spot.value, s))
    {
      for attempt := 0 to MaxAttempts
        invariant game.tanks == old(game.tanks)
        invariant FirstClear(draws, game.tanks) == FirstClear(draws[attempt..], game.tanks)
      {
        assert draws[attempt..][1..] == draws[attempt + 1..];
        var x, y := draws[attempt].0 * WallSize, draws[attempt].1 * WallSize;
        var ok := IsClear(x, y);
        if ok {
          var t := BuildEnemy(kind, s, x, y);
          DistinctSnoc(game.tanks, t);
          game.tanks := game.tanks + [t];
          return;
        }
      }
    }
  
    /** A new enemy tank at (x, y) with the kind's settings copied onto it. */
    method BuildEnemy(kind: TankType, s: TankSettings, x: int, y: int) returns (t: Tank)
      ensures fresh(t) && EnemyBuilt(t, kind, (x, y), s)
    {
      t := new Tank(x, y, kind, Up);
      t.speed, t.shotCooldown, t.visionRange := s.speed, s.shotCooldown, s.visionRange;
      t.hitPoints, t.aiDecisionInterval := s.hitPoints, s.decisionInterval;
    }

    /** The loop of `spawn_tanks` over one kind: one `spawn_enemy_tank` call per entry
        of `draws`, each of which adds at most one tank of `kind`. Every tank it adds is
        clear of all tanks before it, so the spread from `from` is kept. */
    method SpawnBatch(kind: TankType, s: TankSettings, draws: seq<seq<(int, int)>>, ghost from: int)
      requires forall k :: 0 <= k < |draws| ==> |draws[k]| == MaxAttempts
      requires forall k, d :: 0 <= k < |draws| && d in draws[k] ==> SpawnDraw(d)
      requires Distinct(game.tanks) && from <= |game.tanks| && SpreadFrom(game.tanks, from)
      modifies game`tanks
      ensures Distinct(game.tanks) && SpreadFrom(game.tanks, from)
      ensures |old(game.tanks)| <= |game.tanks| <= |old(game.tanks)| + |draws|
      ensures game.tanks[..|old(game.tanks)|] == old(game.tanks)
      ensures forall k :: |old(game.tanks)| <= k < |game.tanks| ==> fresh(game.tanks[k]) && Enemy(game.tanks[k], kind, s)
    {
      ghost var ts0 := game.tanks;
      for i := 0 to |draws|
        invariant Distinct(game.tanks) && SpreadFrom(game.tanks, from)
        invariant |ts0| <= |game.tanks| <= |ts0| + i
        invariant game.tanks[..|ts0|] == ts0
        invariant forall k :: |ts0| <= k < |game.tanks| ==> fresh(game.tanks[k]) && Enemy(game.tanks[k], kind, s)
      {
        ghost var before := game.tanks;
        SpawnOne(kind, s, draws[i], from);
        assert game.tanks[..|before|][..|ts0|] == game.tanks[..|ts0|];
        assert forall k :: |ts0| <= k < |before| ==> game.tanks[k] == before[k];
      }
    }

    /** One `spawn_enemy_tank` call seen from the spawning loop: the list grows by at
        most one fresh enemy, clear of every tank before it. */
    method SpawnOne(kind: TankType, s: TankSettings, draws: seq<(int, int)>, ghost from: int)
      requires |draws| == MaxAttempts && forall d :: d in draws ==> SpawnDraw(d)
      requires Distinct(game.tanks) && from <= |game.tanks| && SpreadFrom(game.tanks, from)
      modifies game`tanks
      ensures Distinct(game.tanks) && SpreadFrom(game.tanks, from)
      ensures |old(game.tanks)| <= |game.tanks| <= |old(game.tanks)| + 1
      ensures game.tanks[..|old(game.tanks)|] == old(game.tanks)
      ensures |game.tanks| > |old(game.tanks)| ==>
                fresh(game.tanks[|old(game.tanks)|]) && Enemy(game.tanks[|old(game.tanks)|], kind, s)
    {
      ghost var before := game.tanks;
      ghost var spot := FirstClear(draws, before);
      SpawnEnemyTank(kind, s, draws);
      if spot.Some? {
        FirstClearSpec(draws, before);
        var k :| 0 <= k < |draws| && spot.value == (draws[k].0 * WallSize, draws[k].1 * WallSize);
        SpawnDrawSpot(draws[k]);
        SpreadSnoc(before, game.tanks[|before|], from);
        assert game.tanks == before + [game.tanks[|before|]];
      }
    }

    /** The player part of `spawn_tanks`: a new player tank with its settings applied. */
    method BuildPlayer(s: TankSettings) returns (t: Tank)
      ensures fresh(t) && PlayerBuilt(t, s)
    {
      t := new Tank(PlayerX, PlayerY, Player, Up);
      t.speed, t.shotCooldown, t.visionRange, t.hitPoints := s.speed, s.shotCooldown, s.visionRange, s.hitPoints;
    }

    /** `spawn_tanks`: the player tank first, then one attempt per commander, then one
        per normal tank. Every enemy that finds a place is clear of all tanks before it. */
    method SpawnTanks(player: TankSettings, commander: TankSettings, normal: TankSettings,
                      commanders: seq<seq<(int, int)>>, normals: seq<seq<(int, int)>>) returns (ghost mid: int)
      requires forall k :: 0 <= k < |commanders| ==> |commanders[k]| == MaxAttempts
      requires forall k, d :: 0 <= k < |commanders| && d in commanders[k] ==> SpawnDraw(d)
      requires forall k :: 0 <= k < |normals| ==> |normals[k]| == MaxAttempts
      requires forall k, d :: 0 <= k < |normals| && d in normals[k] ==> SpawnDraw(d)
      requires Distinct(game.tanks)
      modifies game`tanks
      ensures Distinct(game.tanks)
      ensures |old(game.tanks)| < |game.tanks| <= |old(game.tanks)| + 1 + |commanders| + |normals|
      ensures game.tanks[..|old(game.tanks)|] == old(game.tanks)
      ensures fresh(game.tanks[|old(game.tanks)|]) && PlayerBuilt(game.tanks[|old(game.tanks)|], player)
      ensures |old(game.tanks)| + 1 <= mid <= |game.tanks| && mid <= |old(game.tanks)| + 1 + |commanders|
      ensures |game.tanks| - mid <= |normals|
      ensures forall k :: |old(game.tanks)| + 1 <= k < mid ==>
                fresh(game.tanks[k]) && Enemy(game.tanks[k], EnemyCommander, commander)
      ensures forall k :: mid <= k < |game.tanks| ==> fresh(game.tanks[k]) && Enemy(game.tanks[k], EnemyNormal, normal)
      ensures SpreadFrom(game.tanks, |old(game.tanks)| + 1)
    {
      var p := BuildPlayer(player);
      DistinctSnoc(game.tanks, p);
      game.tanks := game.tanks + [p];
      ghost var ts1 := game.tanks;
      mid := SpawnEnemies(commander, normal, commanders, normals);
      assert game.tanks[..|ts1|][..|ts1| - 1] == game.tanks[..|ts1| - 1];
    }

    /** The two enemy loops of `spawn_tanks`: commanders first, then normal tanks, all
        after the tanks already listed and each clear of every tank before it. */
    method SpawnEnemies(commander: TankSettings, normal: TankSettings,
                        commanders: seq<seq<(int, int)>>, normals: seq<seq<(int, int)>>) returns (ghost mid: int)
      requires forall k :: 0 <= k < |commanders| ==> |commanders[k]| == MaxAttempts
      requires forall k, d :: 0 <= k < |commanders| && d in commanders[k] ==> SpawnDraw(d)
      requires forall k :: 0 <= k < |normals| ==> |normals[k]| == MaxAttempts
      requires forall k, d :: 0 <= k < |normals| && d in normals[k] ==> SpawnDraw(d)
      requires Distinct(game.tanks)
      modifies game`tanks
      ensures Distinct(game.tanks) && SpreadFrom(game.tanks, |old(game.tanks)|)
      ensures |old(game.tanks)| <= mid <= |game.tanks| && mid <= |old(game.tanks)| + |commanders|
      ensures |game.tanks| - mid <= |normals|
      ensures game.tanks[..|old(game.tanks)|] == old(game.tanks)
      ensures forall k :: |old(game.tanks)| <= k < mid ==> fresh(game.tanks[k]) && Enemy(game.tanks[k], EnemyCommander, commander)
      ensures forall k :: mid <= k < |game.tanks| ==> fresh(game.tanks[k]) && Enemy(game.tanks[k], EnemyNormal, normal)
    {
      ghost var ts1 := game.tanks;
      SpawnBatch(EnemyCommander, commander, commanders, |ts1|);
      mid := |game.tanks|;
      ghost var ts2 := game.tanks;
      SpawnBatch(EnemyNormal, normal, normals, |ts1|);
      assert game.tanks[..|ts2|][..|ts1|] == game.tanks[..|ts1|];
      assert forall k :: |ts1| <= k < mid ==> game.tanks[k] == ts2[k];
    }

    /** `start_level`: every list is cleared and the base removed, a random map is
        generated, the tanks are spawned, and the game is running again with no winner. */
    method StartLevel(d: LevelDraws)
      requires DrawsOk(d)
      modifies game`walls, game`tanks, game`bullets, game`base, game`gameOver, game`winner
      ensures Started(game, d)
    {
      game.tanks, game.bullets, game.walls, game.base := [], [], [], None;
      GenerateRandomMap(d.soil, d.metal);
      ghost var mid := SpawnTanks(d.player, d.commander, d.normal, d.commanders, d.normals);
      game.gameOver, game.winner := false, None;
      assert EnemiesFrom(game.tanks, mid, d);
    }
  }
}
