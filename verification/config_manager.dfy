/**
  `ConfigManager`: the parsed configuration tree and the dotted-path lookup
  `get_value`. The manager is an immutable value here, so a lookup cannot
  change `config` or `path`.
 */
module ConfigLookup {
  import opened Results
  import opened DottedPath

  /** A parsed YAML value. Only string keys are modelled for dicts. */
  datatype Value =
    | Null                          // None
    | Bool(b: bool)
    | Int(i: int)
    | Float(f: real)
    | Str(s: string)
    | List(items: seq<Value>)
    | Dict(entries: map<string, Value>)

  const EmptyDict: Value := Dict(map[])

  /** Only dicts have a `get` method; calling it on anything else raises. */
  datatype LookupError = AttributeError

  datatype ConfigManager = ConfigManager(path: string, config: Value)

  /** `ConfigManager()`: no path and an empty configuration. */
  function NewManager(): (m: ConfigManager)
    ensures m.config.Dict? && m.config.entries == map[]
  {
    ConfigManager("", EmptyDict)
  }

  /** `v.get(key, dflt)`. */
  function Get(v: Value, key: string, dflt: Value): (r: Result<Value, LookupError>)
    ensures r.Err? <==> !v.Dict?
  {
    if !v.Dict? then Err(AttributeError)
    else if key in v.entries then Ok(v.entries[key])
    else Ok(dflt)
  }

  /**
    The loop over all keys but the last: a missing key continues in an empty
    dict. Where every key is present it agrees with following them strictly,
    and from an empty dict it stays in an empty dict.
   */
  function Descend(v: Value, keys: seq<string>): (r: Result<Value, LookupError>)
    ensures Follow(v, keys).Some? ==> r == Ok(Follow(v, keys).value)
    ensures v == EmptyDict ==> r == Ok(EmptyDict)
    decreases |keys|
  {
    if |keys| == 0 then Ok(v)
    else
      match Get(v, keys[0], EmptyDict)
      case Err(err) => Err(err)
      case Ok(w) => Descend(w, keys[1..])
  }

  /**
    `get_value(key_path, default_value=None)`; `None` is `Null`. The result is the reference reading of the
    split path: the leaf when every key is present, the default when a key is
    missing, AttributeError when a present key leads to a non-dict too early.
   */
  function GetValue(m: ConfigManager, keyPath: string, dflt: Value := Null): (r: Result<Value, LookupError>)
    ensures r == Interpret(Resolve(m.config, Split(keyPath)), dflt)
  {
    var keys := Split(keyPath);
    DescendThenGet(m.config, keys, dflt);
    match Descend(m.config, keys[..|keys| - 1])
    case Err(err) => Err(err)
    case Ok(v) => Get(v, keys[|keys| - 1], dflt)
  }

  // ---------------------------------------------------------------------------
  // Reference reading of a dotted path

  datatype Option<T> = None | Some(value: T)

  /** Following keys strictly: `None` as soon as a key is missing or a value is not a dict. */
  function Follow(v: Value, keys: seq<string>): Option<Value>
    decreases |keys|
  {
    if |keys| == 0 then Some(v)
    else if v.Dict? && keys[0] in v.entries then Follow(v.entries[keys[0]], keys[1..])
    else None
  }

  /** How a non-empty key path meets a configuration tree. */
  datatype Lookup =
    | Found(leaf: Value)   // every key present, each one inside a dict
    | Absent               // a key is missing from a dict reached through present keys
    | NotADict             // a present key leads to a non-dict before the path ends

  function Resolve(v: Value, keys: seq<string>): Lookup
    requires |keys| >= 1
    decreases |keys|
  {
    if !v.Dict? then NotADict
    else if keys[0] !in v.entries then Absent
    else if |keys| == 1 then Found(v.entries[keys[0]])
    else Resolve(v.entries[keys[0]], keys[1..])
  }

  /** What `get_value` makes of each way a path can meet the tree. */
  function Interpret(l: Lookup, dflt: Value): Result<Value, LookupError> {
    match l
    case Found(x) => Ok(x)
    case Absent => Ok(dflt)
    case NotADict => Err(AttributeError)
  }

  /** The loop followed by the last `get` agrees with the reference reading. */
  lemma {:induction false} DescendThenGet(v: Value, keys: seq<string>, dflt: Value)
    requires |keys| >= 1
    ensures (match Descend(v, keys[..|keys| - 1])
             case Err(err) => Err(err)
             case Ok(w) => Get(w, keys[|keys| - 1], dflt))
            == Interpret(Resolve(v, keys), dflt)
    decreases |keys|
  {
    var n := |keys|;
    if n > 1 && v.Dict? {
      var init := keys[..n - 1];
      assert init[0] == keys[0] && init[1..] == keys[1..][..n - 2];
      if keys[0] in v.entries {
        DescendThenGet(v.entries[keys[0]], keys[1..], dflt);
      } else {
        assert Descend(EmptyDict, init[1..]) == Ok(EmptyDict);
      }
    }
  }

  /** All keys found: the stored leaf, whatever the default. */
  lemma GetValuePresent(m: ConfigManager, keyPath: string, dflt: Value)
    requires Follow(m.config, Split(keyPath)).Some?
    ensures GetValue(m, keyPath, dflt) == Ok(Follow(m.config, Split(keyPath)).value)
  {
    FoundIffFollow(m.config, Split(keyPath));
  }

  /** `Resolve` finds a leaf exactly when following the keys strictly reaches it. */
  lemma {:induction false} FoundIffFollow(v: Value, keys: seq<string>)
    requires |keys| >= 1
    ensures Resolve(v, keys).Found? <==> Follow(v, keys).Some?
    ensures Resolve(v, keys).Found? ==> Resolve(v, keys).leaf == Follow(v, keys).value
    decreases |keys|
  {
    if |keys| > 1 && v.Dict? && keys[0] in v.entries {
      FoundIffFollow(v.entries[keys[0]], keys[1..]);
    }
  }

  /**
    A key missing from a dict reached through present keys: the rest of the
    walk happens in empty dicts and the lookup yields the default.
   */
  lemma {:induction false} MissingKeyIsAbsent(v: Value, keys: seq<string>, i: nat)
    requires i < |keys|
    requires Follow(v, keys[..i]).Some? && Follow(v, keys[..i]).value.Dict?
    requires keys[i] !in Follow(v, keys[..i]).value.entries
    ensures Resolve(v, keys) == Absent
    decreases i
  {
    if i > 0 {
      assert keys[..i][0] == keys[0] && keys[..i][1..] == keys[1..][..i - 1];
      MissingKeyIsAbsent(v.entries[keys[0]], keys[1..], i - 1);
    }
  }

  /** A missing segment anywhere along the path yields the default (`None` when omitted). */
  lemma GetValueMissing(m: ConfigManager, keyPath: string, i: nat, dflt: Value)
    requires i < |Split(keyPath)|
    requires Follow(m.config, Split(keyPath)[..i]).Some?
    requires Follow(m.config, Split(keyPath)[..i]).value.Dict?
    requires Split(keyPath)[i] !in Follow(m.config, Split(keyPath)[..i]).value.entries
    ensures GetValue(m, keyPath, dflt) == Ok(dflt)
    ensures GetValue(m, keyPath) == Ok(Null)
  {
    MissingKeyIsAbsent(m.config, Split(keyPath), i);
  }

  /** A path without dots is a single `get` on the top-level configuration. */
  lemma GetValueTopLevel(m: ConfigManager, key: string, dflt: Value)
    requires Sep !in key
    ensures GetValue(m, key, dflt) == Get(m.config, key, dflt)
    ensures m.config.Dict? ==>
      GetValue(m, key, dflt) == Ok(if key in m.config.entries then m.config.entries[key] else dflt)
  {
    SplitNoSep(key);
  }
}
