/**
 * Parameter resolution: merging an optional configuration object with
 * explicit keyword overrides into a fresh dict that holds no None value.
 * The shared `resolve_parameters` reads the field names from the config's
 * own class annotations; the OpenAI, Azure and Bedrock adapters keep a
 * copy that reads them from the ModelConfig protocol instead. Both are the
 * one method below, given the field list they read.
 */
module Resolution {
  import opened Wrappers
  import opened Domain

  /**
   * A configuration object as the resolver sees it: the names its class
   * annotates, in declaration order, and the attributes the object has.
   * An attribute set to None is present with value Null; a name with no
   * attribute at all is absent from `attributes`.
   */
  datatype ConfigObject = ConfigObject(annotations: seq<string>, attributes: map<string, Value>)

  /** The entries of `m` whose value is not None. */
  function NonNull(m: map<string, Value>): (r: map<string, Value>)
    ensures forall k :: k in r <==> k in m && m[k] != Null
    ensures forall k | k in r :: r[k] == m[k]
  {
    map k | k in m && m[k] != Null :: m[k]
  }

  /** Field names read from the config's own class annotations (`getattr(config, '__annotations__', {})`). */
  function OwnAnnotations(config: Option<ConfigObject>): seq<string> {
    if config.Some? then config.value.annotations else []
  }

  /** Config `c` has attribute `k` and its value is not None. */
  predicate Supplies(c: ConfigObject, k: string) {
    k in c.attributes && c.attributes[k] != Null
  }

  /** What the config contributes: every listed field it has with a non-None value. */
  function ConfigContribution(fields: seq<string>, config: Option<ConfigObject>): map<string, Value> {
    if config.None? then map[]
    else map k | k in fields && Supplies(config.value, k) :: config.value.attributes[k]
  }

  /**
   * The resolved parameters. A key is present exactly when a non-None
   * override names it, or when it is a listed field the config supplies;
   * the override's value wins over the config's; no value is None.
   */
  function Resolved(fields: seq<string>, config: Option<ConfigObject>, overrides: map<string, Value>): (r: map<string, Value>)
    ensures forall k :: k in r <==>
      (k in overrides && overrides[k] != Null) || (config.Some? && k in fields && Supplies(config.value, k))
    ensures forall k | k in overrides && overrides[k] != Null :: r[k] == overrides[k]
    ensures forall k | k in r && !(k in overrides && overrides[k] != Null) ::
      config.Some? && Supplies(config.value, k) && r[k] == config.value.attributes[k]
    ensures forall k | k in r :: r[k] != Null
    ensures config.None? ==> r == NonNull(overrides)
  {
    ConfigContribution(fields, config) + NonNull(overrides)
  }

  /** Reading one more field extends the config contribution by that field, when the config supplies it. */
  lemma ContributionStep(fields: seq<string>, i: nat, c: ConfigObject)
    requires i < |fields|
    ensures ConfigContribution(fields[..i + 1], Some(c)) ==
      if Supplies(c, fields[i]) then ConfigContribution(fields[..i], Some(c))[fields[i] := c.attributes[fields[i]]]
      else ConfigContribution(fields[..i], Some(c))
  {
    assert fields[..i + 1] == fields[..i] + [fields[i]];
  }

  /** Taking one more override into account sets its key, unless its value is None. */
  lemma OverrideStep(base: map<string, Value>, overrides: map<string, Value>, todo: set<string>, key: string)
    requires key in todo && todo <= overrides.Keys
    ensures base + NonNull(overrides - (todo - {key})) ==
      if overrides[key] != Null then (base + NonNull(overrides - todo))[key := overrides[key]]
      else base + NonNull(overrides - todo)
  {
  }

  /**
   * The resolver loop: first the listed fields of the config, in order,
   * then every override; a None value is skipped in both loops.
   */
  method ResolveParameters(fields: seq<string>, config: Option<ConfigObject>, overrides: map<string, Value>)
    returns (params: map<string, Value>)
    ensures params == Resolved(fields, config, overrides)
  {
    params := map[];
    if config.Some? {
      var c := config.value;
      for i := 0 to |fields|
        invariant params == ConfigContribution(fields[..i], config)
      {
        ContributionStep(fields, i, c);
        var field := fields[i];
        if field in c.attributes {
          var value := c.attributes[field];
          if value != Null {
            params := params[field := value];
          }
        }
      }
      assert fields[..|fields|] == fields;
    }
    ghost var base := ConfigContribution(fields, config);
    var todo := overrides.Keys;
    while todo != {}
      invariant todo <= overrides.Keys
      invariant params == base + NonNull(overrides - todo)
      decreases todo
    {
      var key :| key in todo;
      OverrideStep(base, overrides, todo, key);
      var value := overrides[key];
      if value != Null {
        params := params[key := value];
      }
      todo := todo - {key};
    }
    assert overrides - {} == overrides;
  }
}
