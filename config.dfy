/** config_manager.py: a nested JSON-like configuration read and written through
    dotted keys ("enemy_settings.normal_tank.count"), the tank-count lookups with
    their defaults, and the difficulty overrides. */
module Config {
  import opened Common

  /** A JSON value as the configuration holds it. Numbers are exact reals. */
  datatype Value =
    | Null
    | Flag(b: bool)
    | Num(r: real)
    | Text(s: string)
    | List(items: seq<Value>)
    | Dict(entries: map<string, Value>)

  /** Python truthiness: None, False, zero and empty containers are false. */
  predicate Truthy(v: Value) {
    match v
    case Null => false
    case Flag(b) => b
    case Num(r) => r != 0.0
    case Text(s) => s != []
    case List(xs) => xs != []
    case Dict(m) => m != map[]
  }

  // ---------------------------------------------------------------------------
  // Dotted keys

  /** `key.split('.')`: never empty; an empty key gives one empty part. */
  function Split(s: string): (r: seq<string>)
    ensures |r| >= 1
  {
    if s == [] then [""]
    else
      var rest := Split(s[1..]);
      if s[0] == '.' then [""] + rest else [[s[0]] + rest[0]] + rest[1..]
  }

  /** `'.'.join(parts)`. */
  function Join(parts: seq<string>): string
    requires |parts| >= 1
  {
    if |parts| == 1 then parts[0] else parts[0] + "." + Join(parts[1..])
  }

  /** Joining the parts of a split key gives the key back. */
  lemma {:induction false} JoinSplit(s: string)
    ensures Join(Split(s)) == s
  {
    if s != [] {
      JoinSplit(s[1..]);
      if s[0] == '.' {
        JoinDot(Split(s[1..]));
      } else {
        JoinCons(s[0], Split(s[1..]));
      }
      assert [s[0]] + s[1..] == s;
    }
  }

  /** An empty first part joins to a leading dot. */
  lemma {:induction false} JoinDot(rest: seq<string>)
    requires |rest| >= 1
    ensures Join([""] + rest) == "." + Join(rest)
  {
    assert ([""] + rest)[1..] == rest;
  }

  /** A character put in front of the first part is put in front of the join. */
  lemma {:induction false} JoinCons(c: char, rest: seq<string>)
    requires |rest| >= 1
    ensures Join([[c] + rest[0]] + rest[1..]) == [c] + Join(rest)
  {
    var r := [[c] + rest[0]] + rest[1..];
    if |rest| > 1 {
      assert r[1..] == rest[1..];
      assert Join(r) == ([c] + rest[0]) + "." + Join(rest[1..]);
    }
  }

  /** Splitting the join of dot-free parts gives the parts back. */
  lemma {:induction false} SplitJoin(parts: seq<string>)
    requires |parts| >= 1 && forall k :: 0 <= k < |parts| ==> '.' !in parts[k]
    ensures Split(Join(parts)) == parts
  {
    if |parts| == 1 {
      SplitNoDot(parts[0]);
    } else {
      SplitJoin(parts[1..]);
      SplitPrefix(parts[0], Join(parts[1..]));
    }
  }

  lemma {:induction false} SplitNoDot(s: string)
    requires '.' !in s
    ensures Split(s) == [s]
  {
    if s != [] {
      assert '.' !in s[1..] by {
        forall k | 0 <= k < |s[1..]| ensures s[1..][k] != '.' {
          assert s[1..][k] == s[k + 1];
        }
      }
      SplitNoDot(s[1..]);
      assert [s[0]] + s[1..] == s;
    }
  }

  /** A dot-free part followed by a dot starts a new part. */
  lemma {:induction false} SplitPrefix(a: string, b: string)
    requires '.' !in a
    ensures Split(a + "." + b) == [a] + Split(b)
  {
    if a == [] {
      assert a + "." + b == ['.'] + b;
      assert (['.'] + b)[1..] == b;
    } else {
      assert (a + "." + b)[1..] == a[1..] + "." + b;
      assert '.' !in a[1..] by {
        forall k | 0 <= k < |a[1..]| ensures a[1..][k] != '.' {
          assert a[1..][k] == a[k + 1];
        }
      }
      SplitPrefix(a[1..], b);
      assert [a[0]] + a[1..] == a;
    }
  }

  /** The dotted key of a field of an enemy section splits into its three parts. */
  lemma {:induction false} FieldKey(section: string, field: string)
    requires '.' !in section && '.' !in field
    ensures Split(EnemySettings + "." + section + "." + field) == [EnemySettings, section, field]
  {
    assert '.' !in EnemySettings;
    SplitNoDot(field);
    SplitPrefix(section, field);
    assert EnemySettings + "." + section + "." + field == EnemySettings + "." + (section + "." + field);
    SplitPrefix(EnemySettings, section + "." + field);
  }

  /** The dotted key of an enemy section splits into its two parts. */
  lemma {:induction false} SectionKey(section: string)
    requires '.' !in section
    ensures Split(EnemySettings + "." + section) == [EnemySettings, section]
  {
    assert '.' !in EnemySettings;
    SplitNoDot(section);
    SplitPrefix(EnemySettings, section);
  }

  // ---------------------------------------------------------------------------
  // Walking a path

  /** The value reached from `v` along `path`, when every step is a dictionary that
      holds the next key. */
  function Lookup(v: Value, path: seq<string>): Option<Value>
  {
    if path == [] then Some(v)
    else if v.Dict? && path[0] in v.entries then Lookup(v.entries[path[0]], path[1..])
    else None
  }

  /** `get` with a default, over a root dictionary. */
  function GetOr(root: map<string, Value>, path: seq<string>, default: Value): Value
  {
    match Lookup(Dict(root), path)
    case Some(v) => v
    case None => default
  }

  /** `set` along `path`: missing intermediate keys get fresh empty dictionaries and the
      last key is bound to `x`. An existing intermediate value that is not a dictionary
      makes Python raise, before anything is changed; that is `None`. */
  function Store(m: map<string, Value>, path: seq<string>, x: Value): Option<map<string, Value>>
    requires |path| >= 1
    decreases |path|
  {
    if |path| == 1 then Some(m[path[0] := x])
    else
      var inner := if path[0] in m then m[path[0]] else Dict(map[]);
      if !inner.Dict? then None
      else match Store(inner.entries, path[1..], x)
        case None => None
        case Some(m') => Some(m[path[0] := Dict(m')])
  }

  /** The get-after-set law: once `set` succeeds, walking the same path finds `x`. */
  lemma {:induction false} LookupAfterStore(m: map<string, Value>, path: seq<string>, x: Value)
    requires |path| >= 1 && Store(m, path, x).Some?
    ensures Lookup(Dict(Store(m, path, x).value), path) == Some(x)
    decreases |path|
  {
    if |path| > 1 {
      var inner := if path[0] in m then m[path[0]] else Dict(map[]);
      LookupAfterStore(inner.entries, path[1..], x);
    }
  }

  /** Neither path is a prefix of the other: they part at some index. */
  predicate Diverge(p: seq<string>, q: seq<string>) {
    exists i :: 0 <= i < |p| && i < |q| && p[i] != q[i]
  }

  /** `set` leaves every entry off its path alone: a path that parts from it reads the
      same value before and after. */
  lemma {:induction false} StoreFrame(m: map<string, Value>, path: seq<string>, x: Value, q: seq<string>)
    requires |path| >= 1 && Store(m, path, x).Some? && Diverge(path, q)
    ensures Lookup(Dict(Store(m, path, x).value), q) == Lookup(Dict(m), q)
    decreases |path|
  {
    var i :| 0 <= i < |path| && i < |q| && path[i] != q[i];
    if i > 0 && |path| > 1 {
      var inner := if path[0] in m then m[path[0]] else Dict(map[]);
      assert path[1..][i - 1] != q[1..][i - 1];
      StoreFrame(inner.entries, path[1..], x, q[1..]);
      if path[0] !in m {
        LookupEmpty(q[1..]);
      }
    }
  }

  /** Nothing but the empty path leads anywhere from an empty dictionary. */
  lemma LookupEmpty(q: seq<string>)
    requires q != []
    ensures Lookup(Dict(map[]), q) == None
  {
  }

  /** `set` fails exactly when some proper prefix of the path already holds a value
      that is not a dictionary. */
  lemma {:induction false} StoreFails(m: map<string, Value>, path: seq<string>, x: Value)
    requires |path| >= 1
    ensures Store(m, path, x).None? <==>
              exists j :: 1 <= j < |path| && Lookup(Dict(m), path[..j]).Some? && !Lookup(Dict(m), path[..j]).value.Dict?
    decreases |path|
  {
    if |path| > 1 {
      var inner := if path[0] in m then m[path[0]] else Dict(map[]);
      assert path[..1] == [path[0]];
      if inner.Dict? {
        StoreFails(inner.entries, path[1..], x);
        forall j | 2 <= j < |path|
          ensures Lookup(Dict(m), path[..j]) == (if path[0] in m then Lookup(inner, path[1..][..j - 1]) else None)
        {
          assert path[..j][1..] == path[1..][..j - 1];
        }
        if path[0] in m {
          if Store(inner.entries, path[1..], x).None? {
            var j :| 1 <= j < |path[1..]| && Lookup(inner, path[1..][..j]).Some? && !Lookup(inner, path[1..][..j]).value.Dict?;
            assert Lookup(Dict(m), path[..j + 1]) == Lookup(inner, path[1..][..j]);
          }
          if exists j :: 1 <= j < |path| && Lookup(Dict(m), path[..j]).Some? && !Lookup(Dict(m), path[..j]).value.Dict? {
            var j :| 1 <= j < |path| && Lookup(Dict(m), path[..j]).Some? && !Lookup(Dict(m), path[..j]).value.Dict?;
            assert [path[0]][1..] == [];
            assert Lookup(Dict(m), path[..1]) == Some(inner);
            assert j >= 2;
            assert 1 <= j - 1 < |path[1..]|;
          }
        }
      }
    }
  }

  /** Walking `p + r` is walking `p`, then `r` from where `p` led. */
  lemma {:induction false} LookupAppend(v: Value, p: seq<string>, r: seq<string>)
    ensures Lookup(v, p + r) == match Lookup(v, p) case None => None case Some(u) => Lookup(u, r)
  {
    if p != [] {
      assert (p + r)[0] == p[0] && (p + r)[1..] == p[1..] + r;
      if v.Dict? && p[0] in v.entries {
        LookupAppend(v.entries[p[0]], p[1..], r);
      }
    } else {
      assert p + r == r;
    }
  }

  // ---------------------------------------------------------------------------
  // set_difficulty

  const EnemySettings := "enemy_settings"
  const NormalTank := "normal_tank"
  const CommanderTank := "commander_tank"
  const NormalCountPath := [EnemySettings, NormalTank, "count"]
  const CommanderCountPath := [EnemySettings, CommanderTank, "count"]

  /** `k` occurs in `s` starting at index `i`. */
  predicate OccursAt(k: string, s: string, i: int) {
    0 <= i <= |s| - |k| && s[i..i + |k|] == k
  }

  /** `key in v`: a key of a dictionary, a substring of a string, an element of a list;
      on a number, a boolean or None Python raises (`None`). */
  function Has(v: Value, k: string): Option<bool> {
    match v
    case Dict(m) => Some(k in m)
    case Text(s) => Some(exists i :: 0 <= i <= |s| - |k| && OccursAt(k, s, i))
    case List(xs) => Some(Text(k) in xs)
    case _ => None
  }

  /** `dict.get(k, default)` on a dictionary. */
  function Entry(m: map<string, Value>, k: string, default: Value): Value {
    if k in m then m[k] else default
  }

  /** What a difficulty step writes for one field: the old value scaled by a factor, or
      a given value. */
  datatype Change = Scale(factor: Value) | Assign(x: Value)

  /** The configuration so far and whether Python is still running (false once an
      exception has been raised; the writes made before it stay). */
  datatype Applied = Applied(config: map<string, Value>, ok: bool)

  /** The section `set_difficulty` tunes, as it stands: `self.get` returns the live
      dictionary, so every check after a write sees that write. */
  function SectionOf(m: map<string, Value>, section: string): Value {
    GetOr(m, [EnemySettings, section], Dict(map[]))
  }

  /** The value a change writes over `cfg[field]`; multiplying anything but two numbers
      is taken as an error (`None`). */
  function NewValue(cfg: Value, field: string, c: Change): Option<Value> {
    match c
    case Assign(v) => Some(v)
    case Scale(f) =>
      if cfg.Dict? && field in cfg.entries && cfg.entries[field].Num? && f.Num? then
        Some(Num(cfg.entries[field].r * f.r))
      else None
  }

  /** `if field in cfg: set("enemy_settings.<section>.<field>", …)`. */
  function Apply(a: Applied, section: string, field: string, c: Change): Applied
  {
    var cfg := SectionOf(a.config, section);
    if !a.ok then a
    else match Has(cfg, field)
      case None => Applied(a.config, false)
      case Some(false) => a
      case Some(true) =>
        match NewValue(cfg, field, c)
        case None => Applied(a.config, false)
        case Some(x) =>
          match Store(a.config, [EnemySettings, section, field], x)
          case None => Applied(a.config, false)
          case Some(m') => Applied(m', true)
  }

  /** The three guarded overrides for one tank section. */
  function Section(a: Applied, section: string, speed: Value, vision: Value, attack: Value): Applied
  {
    Apply(Apply(Apply(a, section, "speed", Scale(speed)), section, "vision_range", Scale(vision)),
          section, "attack_chance", Assign(attack))
  }

  /** The difficulty settings `set_difficulty` reads. */
  function DifficultyPath(level: string): seq<string> {
    Split("difficulty_levels." + level)
  }

  /** The count override of `set_difficulty`, for the difficulty entry `ds`. */
  function CountStep(m: map<string, Value>, ds: map<string, Value>): Applied
  {
    var count := Entry(ds, "normal_tank_count", Null);
    if !Truthy(count) then Applied(m, true)
    else match Store(m, NormalCountPath, count)
      case None => Applied(m, false)
      case Some(m') => Applied(m', true)
  }

  /** The section overrides of `set_difficulty`, with the multipliers and the attack
      chance of the difficulty entry `ds` or their defaults. */
  function Tune(a: Applied, ds: map<string, Value>): Applied
  {
    var speed := Entry(ds, "enemy_speed_multiplier", Num(1.0));
    var vision := Entry(ds, "enemy_vision_multiplier", Num(1.0));
    var attack := Entry(ds, "enemy_attack_chance", Num(0.2));
    Section(Section(a, NormalTank, speed, vision, attack), CommanderTank, speed, vision, attack)
  }

  /** `set_difficulty` over a configuration. */
  function Difficulty(m: map<string, Value>, level: string): Applied
  {
    var ds := GetOr(m, DifficultyPath(level), Dict(map[]));
    if !Truthy(ds) then Applied(m, true)
    else if !ds.Dict? then Applied(m, false)
    else Tune(CountStep(m, ds.entries), ds.entries)
  }

  /** A missing or empty difficulty entry changes nothing. */
  lemma DifficultyMissing(m: map<string, Value>, level: string)
    requires Lookup(Dict(m), DifficultyPath(level)).None? || !Truthy(Lookup(Dict(m), DifficultyPath(level)).value)
    ensures Difficulty(m, level) == Applied(m, true)
  {
  }

  /** One guarded step reads and writes only its own field: a three-step path that
      parts from that field's path reads the same value after the step. */
  lemma {:induction false} ApplyKeeps(a: Applied, section: string, field: string, c: Change, q: seq<string>)
    requires |q| == 3 && (q[1] != section || q[2] != field)
    ensures Lookup(Dict(Apply(a, section, field, c).config), q) == Lookup(Dict(a.config), q)
  {
    var p := [EnemySettings, section, field];
    var cfg := SectionOf(a.config, section);
    if a.ok && Has(cfg, field) == Some(true) {
      var x := NewValue(cfg, field, c);
      if x.Some? && Store(a.config, p, x.value).Some? {
        assert p[1] != q[1] || p[2] != q[2];
        StoreFrame(a.config, p, x.value, q);
      }
    }
  }

  /** One guarded step never creates a field: a three-step path under the enemy
      settings that led nowhere still leads nowhere. */
  lemma ApplyNoNewField(a: Applied, section: string, field: string, c: Change, q: seq<string>)
    requires |q| == 3 && q[0] == EnemySettings && Lookup(Dict(a.config), q).None?
    ensures Lookup(Dict(Apply(a, section, field, c).config), q).None?
  {
    var p := [EnemySettings, section, field];
    var cfg := SectionOf(a.config, section);
    if a.ok && Has(cfg, field) == Some(true) {
      var x := NewValue(cfg, field, c);
      if x.Some? && Store(a.config, p, x.value).Some? {
        assert Apply(a, section, field, c).config == Store(a.config, p, x.value).value;
        if p != q {
          assert p[1] != q[1] || p[2] != q[2];
          StoreFrame(a.config, p, x.value, q);
        } else {
          var head := [EnemySettings, section];
          assert p[..2] == head && q == head + [field];
          LookupAppend(Dict(a.config), head, [field]);
          StoreFails(a.config, p, x.value);
        }
      }
    }
  }

  /** The three steps of one section never create a field either. */
  lemma SectionNoNewField(a: Applied, section: string, speed: Value, vision: Value, attack: Value, q: seq<string>)
    requires |q| == 3 && q[0] == EnemySettings && Lookup(Dict(a.config), q).None?
    ensures Lookup(Dict(Section(a, section, speed, vision, attack).config), q).None?
  {
    var b := Apply(a, section, "speed", Scale(speed));
    ApplyNoNewField(a, section, "speed", Scale(speed), q);
    var c := Apply(b, section, "vision_range", Scale(vision));
    ApplyNoNewField(b, section, "vision_range", Scale(vision), q);
    ApplyNoNewField(c, section, "attack_chance", Assign(attack), q);
  }

  /** Only the fields a section already has are rewritten: after `set_difficulty`, a
      path under the enemy settings that led nowhere before (a missing speed, vision
      range or attack chance of either tank section among them) still leads nowhere,
      unless it is the normal tank count. */
  lemma {:induction false} DifficultyNoNewFields(m: map<string, Value>, level: string, q: seq<string>)
    requires |q| == 3 && q[0] == EnemySettings && q != NormalCountPath
    requires Lookup(Dict(m), q).None?
    ensures Lookup(Dict(Difficulty(m, level).config), q).None?
  {
    var ds := GetOr(m, DifficultyPath(level), Dict(map[]));
    if Truthy(ds) && ds.Dict? {
      var count := Entry(ds.entries, "normal_tank_count", Null);
      var a0 :=
        if !Truthy(count) then Applied(m, true)
        else match Store(m, NormalCountPath, count)
          case None => Applied(m, false)
          case Some(m') => Applied(m', true);
      if Truthy(count) && Store(m, NormalCountPath, count).Some? {
        assert NormalCountPath[1] != q[1] || NormalCountPath[2] != q[2];
        StoreFrame(m, NormalCountPath, count, q);
      }
      var speed := Entry(ds.entries, "enemy_speed_multiplier", Num(1.0));
      var vision := Entry(ds.entries, "enemy_vision_multiplier", Num(1.0));
      var attack := Entry(ds.entries, "enemy_attack_chance", Num(0.2));
      var a1 := Section(a0, NormalTank, speed, vision, attack);
      SectionNoNewField(a0, NormalTank, speed, vision, attack, q);
      SectionNoNewField(a1, CommanderTank, speed, vision, attack, q);
    }
  }

  /** A difficulty that names a (truthy) normal tank count, applied without an error,
      leaves exactly that count in the configuration: the section overrides that
      follow never touch it. */
  lemma {:induction false} DifficultyCount(m: map<string, Value>, level: string)
    requires Lookup(Dict(m), DifficultyPath(level)).Some?
    requires Lookup(Dict(m), DifficultyPath(level)).value.Dict?
    requires Truthy(Entry(Lookup(Dict(m), DifficultyPath(level)).value.entries, "normal_tank_count", Null))
    requires Difficulty(m, level).ok
    ensures Lookup(Dict(Difficulty(m, level).config), NormalCountPath)
            == Some(Lookup(Dict(m), DifficultyPath(level)).value.entries["normal_tank_count"])
  {
    var ds := GetOr(m, DifficultyPath(level), Dict(map[]));
    var count := Entry(ds.entries, "normal_tank_count", Null);
    assert Truthy(ds);
    var a0 := match Store(m, NormalCountPath, count)
      case None => Applied(m, false)
      case Some(m') => Applied(m', true);
    if Store(m, NormalCountPath, count).Some? {
      LookupAfterStore(m, NormalCountPath, count);
      var speed := Entry(ds.entries, "enemy_speed_multiplier", Num(1.0));
      var vision := Entry(ds.entries, "enemy_vision_multiplier", Num(1.0));
      var attack := Entry(ds.entries, "enemy_attack_chance", Num(0.2));
      var q := NormalCountPath;
      var s1 := Apply(a0, NormalTank, "speed", Scale(speed));
      var s2 := Apply(s1, NormalTank, "vision_range", Scale(vision));
      var s3 := Apply(s2, NormalTank, "attack_chance", Assign(attack));
      var s4 := Apply(s3, CommanderTank, "speed", Scale(speed));
      var s5 := Apply(s4, CommanderTank, "vision_range", Scale(vision));
      ApplyKeeps(a0, NormalTank, "speed", Scale(speed), q);
      ApplyKeeps(s1, NormalTank, "vision_range", Scale(vision), q);
      ApplyKeeps(s2, NormalTank, "attack_chance", Assign(attack), q);
      ApplyKeeps(s3, CommanderTank, "speed", Scale(speed), q);
      ApplyKeeps(s4, CommanderTank, "vision_range", Scale(vision), q);
      ApplyKeeps(s5, CommanderTank, "attack_chance", Assign(attack), q);
    }
  }

  // ---------------------------------------------------------------------------
  // The manager

  /** `get_default_config`, the configuration used when no file is read. */
  function DefaultConfig(): map<string, Value> {
    map[
      "game_settings" := Dict(map[
        "screen_width" := Num(800.0), "screen_height" := Num(600.0), "fps" := Num(60.0),
        "tank_size" := Num(40.0), "bullet_size" := Num(8.0), "wall_size" := Num(40.0)]),
      EnemySettings := Dict(map[
        NormalTank := Dict(map[
          "count" := Num(5.0), "speed" := Num(1.5), "shot_cooldown" := Num(800.0),
          "vision_range" := Num(120.0), "hit_points" := Num(1.0), "color" := Text("blue")])])]
  }

  class ConfigManager {
    var config: map<string, Value>

    /** A manager whose file could not be read starts from the default configuration. */
    constructor ()
      ensures config == DefaultConfig()
    {
      config := DefaultConfig();
    }

    /** `get`: walk the dotted key; the default as soon as a step is not a dictionary
        holding the next key. */
    method Get(key: string, default: Value) returns (r: Value)
      ensures Lookup(Dict(config), Split(key)).Some? ==> r == Lookup(Dict(config), Split(key)).value
      ensures Lookup(Dict(config), Split(key)).None? ==> r == default
    {
      var keys := Split(key);
      var value := Dict(config);
      var i := 0;
      assert keys[0..] == keys;
      while i < |keys|
        invariant 0 <= i <= |keys|
        invariant Lookup(Dict(config), keys) == Lookup(value, keys[i..])
      {
        assert keys[i..][1..] == keys[i + 1..];
        if value.Dict? && keys[i] in value.entries {
          value := value.entries[keys[i]];
        } else {
          return default;
        }
        i := i + 1;
      }
      return value;
    }

    /** `set`: on success the path now leads to `x`; when an existing intermediate value
        is not a dictionary Python raises and nothing changes. */
    method Set(key: string, x: Value) returns (ok: bool)
      modifies this`config
      ensures ok == Store(old(config), Split(key), x).Some?
      ensures config == if ok then Store(old(config), Split(key), x).value else old(config)
    {
      var s := Store(config, Split(key), x);
      if s.Some? {
        config := s.value;
      }
      ok := s.Some?;
    }

    /** `get_normal_tank_count`: the configured count, 5 when it is missing. */
    method NormalTankCount() returns (n: Value)
      ensures Lookup(Dict(config), NormalCountPath).Some? ==> n == Lookup(Dict(config), NormalCountPath).value
      ensures Lookup(Dict(config), NormalCountPath).None? ==> n == Num(5.0)
    {
      FieldKey(NormalTank, "count");
      n := Get(EnemySettings + "." + NormalTank + "." + "count", Num(5.0));
    }

    /** `get_commander_tank_count`: the configured count, 1 when it is missing. */
    method CommanderTankCount() returns (n: Value)
      ensures Lookup(Dict(config), CommanderCountPath).Some? ==> n == Lookup(Dict(config), CommanderCountPath).value
      ensures Lookup(Dict(config), CommanderCountPath).None? ==> n == Num(1.0)
    {
      FieldKey(CommanderTank, "count");
      n := Get(EnemySettings + "." + CommanderTank + "." + "count", Num(1.0));
    }

    /** One guarded override of `set_difficulty`, read through `get` and written through
        `set`; `ok` is false when Python would have raised. */
    method Override(section: string, field: string, c: Change) returns (ok: bool)
      requires '.' !in section && '.' !in field
      modifies this`config
      ensures Applied(config, ok) == Apply(Applied(old(config), true), section, field, c)
    {
      SectionKey(section);
      FieldKey(section, field);
      var cfg := Get(EnemySettings + "." + section, Dict(map[]));
      var has := Has(cfg, field);
      if has.None? {
        return false;
      }
      if !has.value {
        return true;
      }
      var x := NewValue(cfg, field, c);
      if x.None? {
        return false;
      }
      ok := Set(EnemySettings + "." + section + "." + field, x.value);
    }

    /** The three overrides of one section, stopping at the first error. */
    method OverrideSection(section: string, speed: Value, vision: Value, attack: Value) returns (ok: bool)
      requires '.' !in section
      modifies this`config
      ensures Applied(config, ok) == Section(Applied(old(config), true), section, speed, vision, attack)
    {
      ok := Override(section, "speed", Scale(speed));
      if ok {
        ok := Override(section, "vision_range", Scale(vision));
        if ok {
          ok := Override(section, "attack_chance", Assign(attack));
        }
      }
    }

    /** `set_difficulty`: the count override, then the speed, vision and attack overrides
        of the normal and then the commander section; it stops at the first error,
        keeping the writes made before it. */
    method SetDifficulty(level: string) returns (ok: bool)
      modifies this`config
      ensures Applied(config, ok) == Difficulty(old(config), level)
    {
      var ds := Get("difficulty_levels." + level, Dict(map[]));
      if !Truthy(ds) {
        return true;
      }
      if !ds.Dict? {
        return false;
      }
      var count := Entry(ds.entries, "normal_tank_count", Null);
      if Truthy(count) {
        FieldKey(NormalTank, "count");
        ok := Set(EnemySettings + "." + NormalTank + "." + "count", count);
        if !ok {
          return;
        }
      }
      ok := TuneSections(ds.entries);
    }

    /** The section overrides, normal tank first, stopping at the first error. */
    method TuneSections(ds: map<string, Value>) returns (ok: bool)
      modifies this`config
      ensures Applied(config, ok) == Tune(Applied(old(config), true), ds)
    {
      var speed := Entry(ds, "enemy_speed_multiplier", Num(1.0));
      var vision := Entry(ds, "enemy_vision_multiplier", Num(1.0));
      var attack := Entry(ds, "enemy_attack_chance", Num(0.2));
      ok := OverrideSection(NormalTank, speed, vision, attack);
      ghost var a1 := Applied(config, ok);
      if ok {
        ok := OverrideSection(CommanderTank, speed, vision, attack);
      } else {
        assert Section(a1, CommanderTank, speed, vision, attack) == a1;
      }
    }
  }
}
