/**
 * The dotted-key configuration store (config/config_loader.py): a nested
 * dictionary read with `get` and written in place with `set`, where a key
 * such as "control.pid.kp" names a path through the nested levels.
 */
module ConfigLoader {
  import opened Wrappers
  import opened Text

  /** A YAML value: Python's None, bool, int, float, str, list and dict. */
  datatype Value =
    | Null
    | Bool(b: bool)
    | Int(i: int)
    | Float(r: real)
    | Str(s: string)
    | List(items: seq<Value>)
    | Dict(entries: map<string, Value>)

  /** A configuration: the top-level dictionary. */
  type Config = map<string, Value>

  /** The segments of a dotted key, as `key.split('.')` gives them. */
  function Keys(key: string): (keys: seq<string>)
    ensures |keys| >= 1
  {
    Split(key, '.')
  }

  /**
   * The path walk of `get`: follow each key while the current value is a
   * dictionary holding it; `None` as soon as one is missing or the current
   * value is not a dictionary.
   */
  function Lookup(v: Value, keys: seq<string>): Option<Value> {
    if keys == [] then Some(v)
    else if v.Dict? && keys[0] in v.entries then Lookup(v.entries[keys[0]], keys[1..])
    else None
  }

  /** `get(key, default)`. */
  function GetOr(config: Config, key: string, default: Value): Value {
    match Lookup(Dict(config), Keys(key))
    case Some(v) => v
    case None => default
  }

  /** The level `set` descends into for key `k`: the existing value, or a new empty dictionary. */
  function Child(m: Config, k: string): Value {
    if k in m then m[k] else Dict(map[])
  }

  /**
   * The effect of `set` on a dictionary: missing levels become empty
   * dictionaries and only the final key is overwritten. `None` when a level
   * on the path exists but is not a dictionary, where Python raises
   * `TypeError` before anything is written.
   */
  function Assign(m: Config, keys: seq<string>, v: Value): (r: Option<Config>)
    requires |keys| >= 1
    ensures r.Some? ==> r.value.Keys == m.Keys + {keys[0]}
    ensures r.Some? ==> forall k :: k in m && k != keys[0] ==> r.value[k] == m[k]
    decreases |keys|
  {
    if |keys| == 1 then Some(m[keys[0] := v])
    else
      var child := Child(m, keys[0]);
      if !child.Dict? then None
      else
        match Assign(child.entries, keys[1..], v)
        case None => None
        case Some(c) => Some(m[keys[0] := Dict(c)])
  }

  /** `get` after a successful `set` of the same path returns the value set. */
  lemma {:induction false} AssignLookup(m: Config, keys: seq<string>, v: Value)
    requires |keys| >= 1 && Assign(m, keys, v).Some?
    ensures Lookup(Dict(Assign(m, keys, v).value), keys) == Some(v)
    decreases |keys|
  {
    if |keys| > 1 {
      AssignLookup(Child(m, keys[0]).entries, keys[1..], v);
    }
  }

  /** Two paths that differ at some position both reach. */
  predicate Diverges(p: seq<string>, keys: seq<string>) {
    exists i :: 0 <= i < |p| && i < |keys| && p[i] != keys[i]
  }

  /** `set` leaves every path that leaves the set path somewhere as it was. */
  lemma {:induction false} AssignOffPath(m: Config, keys: seq<string>, v: Value, p: seq<string>)
    requires |keys| >= 1 && Assign(m, keys, v).Some?
    requires Diverges(p, keys)
    ensures Lookup(Dict(Assign(m, keys, v).value), p) == Lookup(Dict(m), p)
    decreases |keys|
  {
    var i :| 0 <= i < |p| && i < |keys| && p[i] != keys[i];
    if p[0] != keys[0] {
      var m' := Assign(m, keys, v).value;
      assert p[0] in m' <==> p[0] in m;
    } else {
      assert i > 0 && |keys| > 1;
      var child := Child(m, keys[0]);
      assert p[1..][i - 1] == p[i] && keys[1..][i - 1] == keys[i];
      AssignOffPath(child.entries, keys[1..], v, p[1..]);
      if keys[0] !in m {
        EmptyLookup(p[1..]);
      }
    }
  }

  /** A new empty level holds no non-empty path. */
  lemma EmptyLookup(p: seq<string>)
    requires p != []
    ensures Lookup(Dict(map[]), p) == None
  {
  }

  /**
   * `set` fails exactly when some proper prefix of the path already leads to
   * a value that is not a dictionary.
   */
  lemma {:induction false} AssignFails(m: Config, keys: seq<string>, v: Value)
    requires |keys| >= 1
    ensures Assign(m, keys, v).None? <==>
      exists i :: 1 <= i < |keys| && BlockedAt(Dict(m), keys, i)
    decreases |keys|
  {
    if |keys| > 1 {
      var child := Child(m, keys[0]);
      if keys[0] in m && !child.Dict? {
        assert keys[..1][0] == keys[0] && keys[..1][1..] == [];
        assert BlockedAt(Dict(m), keys, 1);
      } else {
        AssignFails(child.entries, keys[1..], v);
        forall i | 2 <= i < |keys| ensures BlockedAt(Dict(m), keys, i) <==> BlockedAt(child, keys[1..], i - 1) {
          assert keys[..i][1..] == keys[1..][..i - 1];
          if keys[0] !in m {
            EmptyLookup(keys[1..][..i - 1]);
          }
        }
        if keys[0] !in m {
          assert forall i :: 1 <= i < |keys| - 1 ==> !BlockedAt(child, keys[1..], i) by {
            forall i | 1 <= i < |keys| - 1 ensures !BlockedAt(child, keys[1..], i) {
              EmptyLookup(keys[1..][..i]);
            }
          }
        }
        assert keys[..1][0] == keys[0] && keys[..1][1..] == [];
        assert Lookup(Dict(m), keys[..1]) == if keys[0] in m then Some(m[keys[0]]) else None;
        assert !BlockedAt(Dict(m), keys, 1);
        if exists i :: 1 <= i < |keys| - 1 && BlockedAt(child, keys[1..], i) {
          var i :| 1 <= i < |keys| - 1 && BlockedAt(child, keys[1..], i);
          assert BlockedAt(Dict(m), keys, i + 1);
        }
      }
    }
  }

  /** The first `i` keys lead to an existing value that is not a dictionary. */
  predicate BlockedAt(root: Value, keys: seq<string>, i: int)
    requires 0 <= i <= |keys|
  {
    var at := Lookup(root, keys[..i]);
    at.Some? && !at.value.Dict?
  }

  /** `levels[j + 1]` is the dictionary `set` reaches from `levels[j]` with key `keys[j]`. */
  predicate Chain(levels: seq<Config>, keys: seq<string>) {
    forall j :: 0 <= j < |levels| - 1 && j < |keys| ==> Child(levels[j], keys[j]) == Dict(levels[j + 1])
  }

  /**
   * The descent loop of `set` over all keys but the last, creating missing
   * levels; false where an existing level is not a dictionary.
   */
  method Descend(config: Config, keys: seq<string>, value: Value) returns (levels: seq<Config>, ok: bool)
    requires |keys| >= 1
    ensures ok == Assign(config, keys, value).Some?
    ensures ok ==> |levels| == |keys| && levels[0] == config && Chain(levels, keys)
  {
    var n := |keys|;
    levels := [config];
    var i := 0;
    while i < n - 1
      invariant 0 <= i <= n - 1
      invariant |levels| == i + 1 && levels[0] == config && Chain(levels, keys)
      invariant Assign(config, keys, value).None? <==> Assign(levels[i], keys[i..], value).None?
    {
      var k := keys[i];
      var child := Child(levels[i], k);
      assert keys[i..][0] == k && keys[i..][1..] == keys[i + 1..];
      if !child.Dict? {
        return levels, false;
      }
      levels := levels + [child.entries];
      i := i + 1;
    }
    assert keys[n - 1..] == [keys[n - 1]];
    ok := true;
  }

  /** The final write of `set`, seen from the top: each level gets its updated child back. */
  method Rebuild(levels: seq<Config>, keys: seq<string>, value: Value) returns (m: Config)
    requires |levels| == |keys| >= 1 && Chain(levels, keys)
    ensures Assign(levels[0], keys, value) == Some(m)
  {
    var n := |keys|;
    m := levels[n - 1][keys[n - 1] := value];
    assert keys[n - 1..] == [keys[n - 1]];
    var j := n - 1;
    while j > 0
      invariant 0 <= j <= n - 1
      invariant Assign(levels[j], keys[j..], value) == Some(m)
    {
      assert keys[j - 1..][0] == keys[j - 1] && keys[j - 1..][1..] == keys[j..];
      m := levels[j - 1][keys[j - 1] := Dict(m)];
      j := j - 1;
    }
  }

  /** `get_default_config()`. */
  function DefaultConfig(): Config {
    map["simulation" := SimulationDefaults, "control" := ControlDefaults,
        "logging" := LoggingDefaults, "rl" := RlDefaults]
  }

  const SimulationDefaults := Dict(map[
    "timestep" := Float(0.01), "duration" := Float(10.0),
    "gravity" := List([Int(0), Int(0), Float(-9.81)]), "render" := Bool(false)])

  const PidDefaults := Dict(map["kp" := Float(1.0), "ki" := Float(0.1), "kd" := Float(0.01)])

  const ControlDefaults := Dict(map["type" := Str("pid"), "pid" := PidDefaults])

  const LoggingDefaults := Dict(map["level" := Str("INFO"), "log_dir" := Str("logs"), "save_frequency" := Int(100)])

  const RlDefaults := Dict(map[
    "algorithm" := Str("PPO"), "total_timesteps" := Int(100000), "learning_rate" := Float(0.0003),
    "n_steps" := Int(2048), "batch_size" := Int(64), "policy" := Str("MlpPolicy")])

  /** The default configuration has exactly the four top-level sections. */
  lemma DefaultSections()
    ensures DefaultConfig().Keys == {"simulation", "control", "logging", "rl"}
  {
  }

  /** `ConfigLoader`: the configuration dictionary it holds and changes. */
  class Loader {
    var config: Config
    var configPath: Option<string>

    /** `ConfigLoader()` without a path holds the default configuration. */
    constructor ()
      ensures config == DefaultConfig() && configPath == None
    {
      config := DefaultConfig();
      configPath := None;
    }

    /** `get`: the loop reassigning `value` along the dotted path. */
    method Get(key: string, default: Value) returns (value: Value)
      ensures value == GetOr(config, key, default)
    {
      var keys := Keys(key);
      value := Dict(config);
      var i := 0;
      while i < |keys|
        invariant 0 <= i <= |keys|
        invariant Lookup(Dict(config), keys) == Lookup(value, keys[i..])
      {
        var k := keys[i];
        assert keys[i..][1..] == keys[i + 1..];
        if value.Dict? && k in value.entries {
          value := value.entries[k];
        } else {
          return default;
        }
        i := i + 1;
      }
    }

    /**
     * `set`: descend through all keys but the last, creating missing levels,
     * then write the last key. Returns false where Python raises `TypeError`,
     * and then nothing has changed.
     */
    method Set(key: string, value: Value) returns (ok: bool)
      modifies this
      ensures configPath == old(configPath)
      ensures ok == Assign(old(config), Keys(key), value).Some?
      ensures ok ==> config == Assign(old(config), Keys(key), value).value
      ensures !ok ==> config == old(config)
    {
      var keys := Keys(key);
      var levels;
      levels, ok := Descend(config, keys, value);
      if ok {
        config := Rebuild(levels, keys, value);
      }
    }

    /** `to_dict`: a copy of the configuration, independent of the loader's own. */
    method ToDict() returns (d: Config)
      ensures d == config
    {
      d := config;
    }
  }

  /** After `set` succeeds, `get` of the same key returns the value set, whatever the default. */
  lemma SetThenGet(config: Config, key: string, v: Value, default: Value)
    requires Assign(config, Keys(key), v).Some?
    ensures GetOr(Assign(config, Keys(key), v).value, key, default) == v
  {
    AssignLookup(config, Keys(key), v);
  }

  /** After `set` succeeds, every key whose path leaves the set path reads as before. */
  lemma SetKeepsOtherKeys(config: Config, key: string, v: Value, other: string, default: Value)
    requires Assign(config, Keys(key), v).Some?
    requires Diverges(Keys(other), Keys(key))
    ensures GetOr(Assign(config, Keys(key), v).value, other, default) == GetOr(config, other, default)
  {
    AssignOffPath(config, Keys(key), v, Keys(other));
  }

  /** A path of dictionaries (or of levels `set` creates) never makes `set` fail. */
  lemma SetOnDefaults(key: string, v: Value)
    requires forall i :: 1 <= i < |Keys(key)| ==> !BlockedAt(Dict(DefaultConfig()), Keys(key), i)
    ensures Assign(DefaultConfig(), Keys(key), v).Some?
  {
    AssignFails(DefaultConfig(), Keys(key), v);
  }

  lemma KeysTestValue()
    ensures Keys("test.value") == ["test", "value"]
  {
    assert JoinWith(".", ["test", "value"]) == "test.value";
    SplitJoin(["test", "value"], '.');
  }

  lemma KeysTestNested()
    ensures Keys("test.nested.value") == ["test", "nested", "value"]
  {
    assert JoinWith(".", ["test", "nested", "value"]) == "test.nested.value";
    SplitJoin(["test", "nested", "value"], '.');
  }

  lemma KeysNonexistent()
    ensures Keys("nonexistent.key") == ["nonexistent", "key"]
  {
    assert JoinWith(".", ["nonexistent", "key"]) == "nonexistent.key";
    SplitJoin(["nonexistent", "key"], '.');
  }

  lemma KeysTimestep()
    ensures Keys("simulation.timestep") == ["simulation", "timestep"]
  {
    assert JoinWith(".", ["simulation", "timestep"]) == "simulation.timestep";
    SplitJoin(["simulation", "timestep"], '.');
  }

  lemma KeysKp()
    ensures Keys("control.pid.kp") == ["control", "pid", "kp"]
  {
    assert JoinWith(".", ["control", "pid", "kp"]) == "control.pid.kp";
    SplitJoin(["control", "pid", "kp"], '.');
  }

  /** On the default configuration, the timestep and the proportional gain are found along their paths. */
  lemma DefaultReadsAt(timestepKey: string, kpKey: string)
    requires Keys(timestepKey) == ["simulation", "timestep"] && Keys(kpKey) == ["control", "pid", "kp"]
    ensures GetOr(DefaultConfig(), timestepKey, Null) == Float(0.01)
    ensures GetOr(DefaultConfig(), kpKey, Null) == Float(1.0)
  {
    var d := DefaultConfig();
    assert d["simulation"] == SimulationDefaults && d["control"] == ControlDefaults;
    assert SimulationDefaults.entries["timestep"] == Float(0.01);
    assert ControlDefaults.entries["pid"] == PidDefaults && PidDefaults.entries["kp"] == Float(1.0);
    LookupPath(d, "simulation", ["timestep"]);
    LookupPath(SimulationDefaults.entries, "timestep", []);
    LookupPath(d, "control", ["pid", "kp"]);
    LookupPath(ControlDefaults.entries, "pid", ["kp"]);
    LookupPath(PidDefaults.entries, "kp", []);
  }

  /** `get('simulation.timestep')` and `get('control.pid.kp')` on the default configuration find their values. */
  lemma DefaultNestedReads()
    ensures GetOr(DefaultConfig(), "simulation.timestep", Null) == Float(0.01)
    ensures GetOr(DefaultConfig(), "control.pid.kp", Null) == Float(1.0)
  {
    KeysTimestep();
    KeysKp();
    DefaultReadsAt("simulation.timestep", "control.pid.kp");
  }

  /** One step of the lookup: a present first segment continues in its value. */
  lemma LookupPath(m: Config, k: string, rest: seq<string>)
    requires k in m
    ensures Lookup(Dict(m), [k] + rest) == Lookup(m[k], rest)
  {
    assert ([k] + rest)[1..] == rest;
  }

  /** A key whose first segment is not a top-level key reads its default. */
  lemma MissingSectionReadsDefault(config: Config, key: string, default: Value)
    requires Keys(key)[0] !in config
    ensures GetOr(config, key, default) == default
  {
  }

  /** `get('nonexistent.key', default=42)` on the default configuration is 42. */
  lemma MissingKeyReadsDefault()
    ensures GetOr(DefaultConfig(), "nonexistent.key", Int(42)) == Int(42)
  {
    KeysNonexistent();
    DefaultMissingAt("nonexistent.key");
  }

  /** Any key under the absent "nonexistent" section reads its default on the defaults. */
  lemma DefaultMissingAt(key: string)
    requires Keys(key) == ["nonexistent", "key"]
    ensures GetOr(DefaultConfig(), key, Int(42)) == Int(42)
  {
    DefaultSections();
    MissingSectionReadsDefault(DefaultConfig(), key, Int(42));
  }

  /**
   * The set/get round trip on any configuration without a "test" section, the
   * default one included: "test.value" set to 100 reads 100; after setting
   * "test.nested.value" to "hello" both keys read what was set.
   */
  lemma TestSectionRoundTrip(config: Config, valueKey: string, nestedKey: string)
    requires "test" !in config
    requires Keys(valueKey) == ["test", "value"] && Keys(nestedKey) == ["test", "nested", "value"]
    ensures var c1 := Assign(config, Keys(valueKey), Int(100));
      && c1.Some? && GetOr(c1.value, valueKey, Null) == Int(100)
      && var c2 := Assign(c1.value, Keys(nestedKey), Str("hello"));
      && c2.Some? && GetOr(c2.value, nestedKey, Null) == Str("hello")
      && GetOr(c2.value, valueKey, Null) == Int(100)
  {
    var c1 := Assign(config, ["test", "value"], Int(100));
    assert c1.Some?;
    SetThenGet(config, valueKey, Int(100), Null);
    assert c1.value["test"] == Dict(map["value" := Int(100)]);
    var c2 := Assign(c1.value, ["test", "nested", "value"], Str("hello"));
    assert c2.Some?;
    SetThenGet(c1.value, nestedKey, Str("hello"), Null);
    assert Keys(valueKey)[1] != Keys(nestedKey)[1];
    SetKeepsOtherKeys(c1.value, nestedKey, Str("hello"), valueKey, Null);
  }

  /** The round trip of the loader's tests, on the default configuration and the keys they use. */
  lemma DefaultTestRoundTrip()
    ensures var c1 := Assign(DefaultConfig(), Keys("test.value"), Int(100));
      && c1.Some? && GetOr(c1.value, "test.value", Null) == Int(100)
      && var c2 := Assign(c1.value, Keys("test.nested.value"), Str("hello"));
      && c2.Some? && GetOr(c2.value, "test.nested.value", Null) == Str("hello")
      && GetOr(c2.value, "test.value", Null) == Int(100)
  {
    DefaultSections();
    KeysTestValue();
    KeysTestNested();
    TestSectionRoundTrip(DefaultConfig(), "test.value", "test.nested.value");
  }
}
