/**
 * The application's configuration: a nested dictionary of JSON values with built-in defaults,
 * merged recursively with the file's values, read and written through dot-separated key paths.
 * Reading and writing the configuration file are left to the caller: the file's contents (if
 * any) are a parameter, and the dictionary that would be saved is the result.
 */
module Config {
  import opened Wrappers
  import PyText

  /** A JSON value as `json.load` produces it; Python tuples are written as lists. */
  datatype Value =
    | Null
    | Bool(b: bool)
    | Int(i: int)
    | Float(x: real)
    | Str(s: string)
    | List(items: seq<Value>)
    | Dict(entries: map<string, Value>)

  /** A dictionary of settings. */
  type Table = map<string, Value>

  /** DEFAULT_CONFIG. */
  const DefaultConfig: Table := map[
    "ui" := Dict(map[
      "screen_size" := List([Int(1200), Int(800)]),
      "theme" := Str("default"),
      "show_legal_moves" := Bool(true),
      "show_last_move" := Bool(true),
      "show_coordinates" := Bool(true),
      "animation_speed" := Int(5)]),
    "game" := Dict(map[
      "default_time_control" := Str("10+5"),
      "default_ai_difficulty" := Int(3),
      "auto_queen_promotion" := Bool(false),
      "auto_save_games" := Bool(true)]),
    "analysis" := Dict(map[
      "engine_depth" := Int(18),
      "save_analysis" := Bool(true),
      "critical_position_threshold" := Int(200)]),
    "sound" := Dict(map[
      "enabled" := Bool(true),
      "volume" := Float(0.7)]),
    "paths" := Dict(map[
      "game_history" := Str("data/game_history.json"),
      "player_stats" := Str("data/player_stats.json"),
      "logs" := Str("logs")])]

  // ---------------------------------------------------------------- recursive merge

  /** What one key holds after the merge: the override, unless both sides are dictionaries. */
  function MergeValue(b: Value, o: Value): (r: Value)
    ensures !(b.Dict? && o.Dict?) ==> r == o
    ensures b.Dict? && o.Dict? ==> r.Dict? && r.entries.Keys == b.entries.Keys + o.entries.Keys
    decreases o, 1
  {
    if b.Dict? && o.Dict? then Dict(Merge(b.entries, o.entries)) else o
  }

  /**
   * The dictionary `_update_config_recursive(base, over)` leaves in `base`: every key of either
   * side, the base value where the override has none, and the merged value otherwise.
   */
  function Merge(base: Table, over: Table): (r: Table)
    ensures r.Keys == base.Keys + over.Keys
    ensures forall k | k in base && k !in over :: r[k] == base[k]
    ensures forall k | k in over :: r[k] == if k in base then MergeValue(base[k], over[k]) else over[k]
    decreases Dict(over), 0
  {
    map k | k in base.Keys + over.Keys ::
      if k in over then (if k in base then MergeValue(base[k], over[k]) else over[k]) else base[k]
  }

  /** Every key of the override ends up in the merge; a value that is not a dictionary on both sides replaces. */
  lemma OverrideWins(base: Table, over: Table, k: string)
    requires k in over
    ensures k in Merge(base, over)
    ensures !(k in base && base[k].Dict? && over[k].Dict?) ==> Merge(base, over)[k] == over[k]
  {
  }

  /** When both sides hold dictionaries, nested keys only the base has survive the merge. */
  lemma NestedBaseKept(base: Table, over: Table, k: string, k2: string)
    requires k in base && k in over && base[k].Dict? && over[k].Dict?
    requires k2 in base[k].entries && k2 !in over[k].entries
    ensures Merge(base, over)[k].Dict?
    ensures k2 in Merge(base, over)[k].entries
    ensures Merge(base, over)[k].entries[k2] == base[k].entries[k2]
  {
    assert Merge(base, over)[k] == Dict(Merge(base[k].entries, over[k].entries));
  }

  /** Merging into nothing gives the override; merging nothing changes nothing. */
  lemma MergeUnits(t: Table)
    ensures Merge(map[], t) == t
    ensures Merge(t, map[]) == t
  {
  }

  /** Loading the same override twice gives what loading it once gives. */
  lemma {:induction false} MergeIdempotent(base: Table, over: Table)
    ensures Merge(Merge(base, over), over) == Merge(base, over)
    decreases Dict(over)
  {
    var once := Merge(base, over);
    forall k | k in over
      ensures MergeValue(once[k], over[k]) == once[k]
    {
      assert over[k] < Dict(over);
      if k in base && base[k].Dict? && over[k].Dict? {
        MergeIdempotent(base[k].entries, over[k].entries);
      } else if over[k].Dict? {
        MergeSelf(over[k].entries);
      }
    }
  }

  /** A dictionary merged with itself is unchanged. */
  lemma {:induction false} MergeSelf(t: Table)
    ensures Merge(t, t) == t
    decreases Dict(t)
  {
    forall k | k in t && t[k].Dict?
      ensures Merge(t[k].entries, t[k].entries) == t[k].entries
    {
      assert t[k] < Dict(t);
      MergeSelf(t[k].entries);
    }
  }

  /**
   * `_update_config_recursive` as the loop over the override's items, recursing into nested
   * dictionaries; it returns the updated base rather than changing it in place.
   */
  method UpdateConfigRecursive(base: Table, over: Table) returns (r: Table)
    ensures r == Merge(base, over)
    decreases Dict(over)
  {
    r := base;
    var todo := over.Keys;
    while todo != {}
      invariant todo <= over.Keys
      invariant r.Keys == base.Keys + (over.Keys - todo)
      invariant forall k | k in r :: r[k] == if k in over && k !in todo then Merge(base, over)[k] else base[k]
      decreases todo
    {
      var key :| key in todo;
      var value := over[key];
      if key in r && r[key].Dict? && value.Dict? {
        assert value < Dict(over);
        var nested := UpdateConfigRecursive(r[key].entries, value.entries);
        r := r[key := Dict(nested)];
      } else {
        r := r[key := value];
      }
      todo := todo - {key};
    }
  }

  /** load_config: the defaults, merged with the file's dictionary when the file could be read. */
  function LoadConfig(file: Option<Table>): (config: Table)
    ensures file.None? ==> config == DefaultConfig
    ensures file.Some? ==> config.Keys == DefaultConfig.Keys + file.value.Keys
    ensures file.Some? ==> forall k | k in DefaultConfig && k !in file.value :: config[k] == DefaultConfig[k]
  {
    if file.Some? then Merge(DefaultConfig, file.value) else DefaultConfig
  }

  // ---------------------------------------------------------------- dotted paths

  /** Following `keys` from `v`: None as soon as a key is missing or the value there is not a dictionary. */
  function Lookup(v: Value, keys: seq<string>): Option<Value>
    decreases |keys|
  {
    if |keys| == 0 then Some(v)
    else if v.Dict? && keys[0] in v.entries then Lookup(v.entries[keys[0]], keys[1..])
    else None
  }

  /** A path is followed one part after the other. */
  lemma {:induction false} LookupConcat(v: Value, a: seq<string>, b: seq<string>)
    ensures Lookup(v, a + b) == if Lookup(v, a).Some? then Lookup(Lookup(v, a).value, b) else None
    decreases |a|
  {
    if |a| == 0 {
      assert a + b == b;
    } else {
      assert (a + b)[0] == a[0] && (a + b)[1..] == a[1..] + b;
      if v.Dict? && a[0] in v.entries {
        LookupConcat(v.entries[a[0]], a[1..], b);
      }
    }
  }

  /** Lookup stops at the first missing key or non-dictionary value, whatever follows. */
  lemma LookupStops(v: Value, keys: seq<string>, j: nat)
    requires j < |keys| && Lookup(v, keys[..j]).Some?
    requires var w := Lookup(v, keys[..j]).value; !(w.Dict? && keys[j] in w.entries)
    ensures Lookup(v, keys) == None
  {
    assert keys == keys[..j] + keys[j..];
    LookupConcat(v, keys[..j], keys[j..]);
  }

  /** get_config_value's result for a configuration already loaded. */
  function ConfigValue(config: Table, keyPath: string, default: Value): Value
  {
    var found := Lookup(Dict(config), PyText.Split(keyPath, '.'));
    if found.Some? then found.value else default
  }

  /** get_config_value: the loop that walks the dot-separated path from the top of the configuration. */
  method GetConfigValue(config: Table, keyPath: string, default: Value) returns (v: Value)
    ensures v == ConfigValue(config, keyPath, default)
    ensures PyText.Split(keyPath, '.') == [keyPath] && keyPath in config ==> v == config[keyPath]
  {
    var keys := PyText.Split(keyPath, '.');
    var current := Dict(config);
    for i := 0 to |keys|
      invariant Lookup(Dict(config), keys) == Lookup(current, keys[i..])
    {
      if current.Dict? && keys[i] in current.entries {
        current := current.entries[keys[i]];
      } else {
        return default;
      }
    }
    return current;
  }

  /**
   * update_config_value's navigation: every key but the last names a dictionary, created empty
   * where missing or where a non-dictionary value was; the last key is set to `value`.
   */
  function SetPath(t: Table, keys: seq<string>, value: Value): (r: Table)
    requires |keys| >= 1
    ensures Lookup(Dict(r), keys) == Some(value)
    ensures forall k | k in t && k != keys[0] :: k in r && r[k] == t[k]
    ensures r.Keys == t.Keys + {keys[0]}
    decreases |keys|
  {
    if |keys| == 1 then t[keys[0] := value]
    else
      var child := if keys[0] in t && t[keys[0]].Dict? then t[keys[0]].entries else map[];
      t[keys[0] := Dict(SetPath(child, keys[1..], value))]
  }

  /** A setting whose path leaves the updated path before its end keeps its value. */
  lemma {:induction false} SetPathKeepsOthers(t: Table, keys: seq<string>, value: Value, p: seq<string>, j: nat)
    requires |keys| >= 1 && j < |keys| && j < |p|
    requires p[..j] == keys[..j] && p[j] != keys[j]
    requires Lookup(Dict(t), p).Some?
    ensures Lookup(Dict(SetPath(t, keys, value)), p) == Lookup(Dict(t), p)
    decreases j
  {
    var r := SetPath(t, keys, value);
    if j > 0 {
      assert p[0] == keys[0] by { assert p[..j][0] == keys[..j][0]; }
      assert p[0] in t && t[p[0]].Dict?;
      var child := t[keys[0]].entries;
      assert r[keys[0]] == Dict(SetPath(child, keys[1..], value));
      assert p[1..][..j - 1] == keys[1..][..j - 1] by {
        assert p[1..][..j - 1] == p[..j][1..];
        assert keys[1..][..j - 1] == keys[..j][1..];
      }
      SetPathKeepsOthers(child, keys[1..], value, p[1..], j - 1);
    }
  }

  /** update_config_value: the configuration that would be saved after setting `keyPath` to `value`. */
  function UpdateConfigValue(config: Table, keyPath: string, value: Value): (r: Table)
    ensures ConfigValue(r, keyPath, Null) == value
    ensures forall k | k in config && k != PyText.Split(keyPath, '.')[0] :: k in r && r[k] == config[k]
  {
    SetPath(config, PyText.Split(keyPath, '.'), value)
  }
}
