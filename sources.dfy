/**
 * The source registry: a source configuration names its backend under "type" ("zmon" when
 * absent); the rest of the configuration is validated by, and becomes the constructor
 * arguments of, that backend's class.
 */
module Sources {
  import opened Wrappers
  import opened OrderedDict
  import opened PyValue
  import opened SourceBase
  import Zmon
  import Lightstep

  const DefaultSource: string := "zmon"

  /** The registered backends, in the registry's order. */
  const SourceNames: seq<string> := ["zmon", "lightstep"]

  datatype Kind = ZmonKind | LightstepKind

  /** `str(_SOURCES.keys())` */
  const SourceKeysText: string := "dict_keys(['zmon', 'lightstep'])"

  function InvalidTypeMessage(typeText: string): string {
    "Given source type '" + typeText + "' is not valid. Choose one from: " + SourceKeysText
  }

  /** The backend a "type" value names, if any. */
  function KindOf(v: Value): (r: Option<Kind>)
    ensures r == Some(ZmonKind) <==> v == Str("zmon")
    ensures r == Some(LightstepKind) <==> v == Str("lightstep")
  {
    if v == Str("zmon") then Some(ZmonKind)
    else if v == Str("lightstep") then Some(LightstepKind)
    else None
  }

  /**
   * `_get_source_cls_from_config`: pops "type" (default "zmon") from a copy of the
   * configuration and looks it up in the registry. An unknown type is a source error naming
   * it; a list or dict as the type cannot be a dictionary key at all.
   */
  function SourceClassFromConfig(config: Dict): (r: Result<(Kind, Dict), Error>)
    ensures r.Ok? ==> r.value.1 == Remove(config, "type")
  {
    var typeValue := GetOr(config, "type", Str(DefaultSource));
    var rest := Remove(config, "type");
    match KindOf(typeValue)
    case Some(kind) => Ok((kind, rest))
    case None =>
      if typeValue.Array? || typeValue.Object? then Err(Crash("TypeError"))
      else
        var text := StrOf(typeValue);
        Err(SourceError(InvalidTypeMessage(if text.Some? then text.value else "")))
  }

  /** Only the two registered names are accepted, and a missing type means ZMON. */
  lemma SourceClassAccepts(config: Dict)
    ensures SourceClassFromConfig(config).Ok? <==>
      "type" !in Keys(config) || Get(config, "type") in {Some(Str("zmon")), Some(Str("lightstep"))}
    ensures "type" !in Keys(config) ==> SourceClassFromConfig(config) == Ok((ZmonKind, config))
    ensures Get(config, "type") == Some(Str("lightstep")) ==> SourceClassFromConfig(config).value.0 == LightstepKind
  {
    if "type" !in Keys(config) {
      RemoveAbsent(config, "type");
    }
  }

  /** A rejected type that can be a key is reported as a source error naming the registry's keys. */
  lemma SourceClassRejects(config: Dict)
    requires "type" in Keys(config)
    requires var t := Get(config, "type").value; t != Str("zmon") && t != Str("lightstep") && t.Str?
    ensures SourceClassFromConfig(config) == Err(SourceError(InvalidTypeMessage(Get(config, "type").value.s)))
  {
  }

  /**
   * The configuration handed on has no "type", reads every other key as the caller's does,
   * and holds no key the caller's lacks (the caller's dictionary itself is a value here, so
   * it is never changed).
   */
  lemma SourceClassStrips(config: Dict, k: string)
    requires SourceClassFromConfig(config).Ok?
    ensures "type" !in Keys(SourceClassFromConfig(config).value.1)
    ensures k != "type" ==> Get(SourceClassFromConfig(config).value.1, k) == Get(config, k)
    ensures k in Keys(SourceClassFromConfig(config).value.1) <==> k in Keys(config) && k != "type"
  {
    if k != "type" {
      GetRemove(config, "type", k);
    }
  }

  /** `validate_config`: the selected backend's check on the stripped configuration. */
  function ValidateConfig(config: Dict): Result<(), Error> {
    match SourceClassFromConfig(config)
    case Err(e) => Err(e)
    case Ok((ZmonKind, rest)) => Zmon.ValidateConfig(rest)
    case Ok((LightstepKind, rest)) => Lightstep.ValidateConfig(rest)
  }

  /**
   * A configuration without "type" is checked exactly as ZMON checks it; one typed "zmon" or
   * "lightstep" is checked by that backend with the "type" entry removed.
   */
  lemma ValidateConfigDelegates(config: Dict)
    ensures "type" !in Keys(config) ==> ValidateConfig(config) == Zmon.ValidateConfig(config)
    ensures Get(config, "type") == Some(Str("zmon")) ==>
      ValidateConfig(config) == Zmon.ValidateConfig(Remove(config, "type"))
    ensures Get(config, "type") == Some(Str("lightstep")) ==>
      ValidateConfig(config) == Lightstep.ValidateConfig(Remove(config, "type"))
  {
    SourceClassAccepts(config);
  }

  // ---------------------------------------------------------------------------------------
  // Building a source

  /** A constructed source: the indicator and the constructor's arguments as stored. */
  datatype Instance =
    | ZmonInstance(indicator: int, checkId: Value, keys: Value, aggregation: Value, tags: Value, excludeKeys: Value)
    | LightstepInstance(indicator: int, streamId: Value, metric: Lightstep.Metric)

  /** The keyword parameters of `ZMON.__init__` after `indicator`, required ones first. */
  const ZmonParams: seq<string> := ["check_id", "keys", "aggregation", "tags", "exclude_keys"]
  const ZmonRequired: seq<string> := ["check_id", "keys", "aggregation"]

  /** The keyword parameters of `Lightstep.__init__` after `indicator`. */
  const LightstepParams: seq<string> := ["stream_id", "metric"]

  /**
   * Whether `cls(indicator=..., **config)` binds: no second "indicator", no unknown keyword
   * and every required parameter given.
   */
  predicate Binds(config: Dict, params: seq<string>, required: seq<string>) {
    && "indicator" !in Keys(config)
    && (forall k :: k in Keys(config) ==> k in params)
    && (forall p :: p in required ==> p in Keys(config))
  }

  /** `ZMON.__init__`: the arguments are stored as given; `tags or {}`, `exclude_keys=()`. */
  function NewZmon(indicator: int, config: Dict): (r: Result<Instance, Error>)
    ensures r.Ok? <==> Binds(config, ZmonParams, ZmonRequired)
    ensures r.Err? ==> r.error == Crash("TypeError")
  {
    if !Binds(config, ZmonParams, ZmonRequired) then Err(Crash("TypeError"))
    else
      var tags := GetOr(config, "tags", Null);
      Ok(ZmonInstance(indicator, Get(config, "check_id").value, Get(config, "keys").value,
                      Get(config, "aggregation").value,
                      if Truthy(tags) then tags else Object([]),
                      GetOr(config, "exclude_keys", Array([]))))
  }

  /** `Lightstep.__init__`: the metric is parsed with `_Metric.from_str`. */
  function NewLightstep(indicator: int, config: Dict): (r: Result<Instance, Error>)
    ensures r.Err? ==> r.error in {Crash("TypeError"), Crash("AttributeError"), Crash("KeyError")}
  {
    if !Binds(config, LightstepParams, LightstepParams) then Err(Crash("TypeError"))
    else
      var metric := Get(config, "metric").value;
      // `.upper()` on something that is not a string
      if !metric.Str? then Err(Crash("AttributeError"))
      else
        match Lightstep.FromStr(metric.s)
        case None => Err(Crash("KeyError"))
        case Some(m) => Ok(LightstepInstance(indicator, Get(config, "stream_id").value, m))
  }

  /** `from_indicator`: the selected class built from the indicator and the stripped configuration. */
  function FromIndicator(indicator: int, source: Dict): Result<Instance, Error> {
    match SourceClassFromConfig(source)
    case Err(e) => Err(e)
    case Ok((ZmonKind, rest)) => NewZmon(indicator, rest)
    case Ok((LightstepKind, rest)) => NewLightstep(indicator, rest)
  }

  /**
   * A Lightstep source builds exactly when its two arguments are the only keys and the metric
   * is a string naming a member, and the instance carries that member.
   */
  lemma NewLightstepMeaning(indicator: int, config: Dict)
    ensures NewLightstep(indicator, config).Ok? <==>
      Binds(config, LightstepParams, LightstepParams) && Get(config, "metric").value.Str? &&
      Lightstep.FromStr(Get(config, "metric").value.s).Some?
    ensures NewLightstep(indicator, config).Ok? ==>
      NewLightstep(indicator, config).value ==
        LightstepInstance(indicator, Get(config, "stream_id").value,
                          Lightstep.FromStr(Get(config, "metric").value.s).value)
  {
    if Binds(config, LightstepParams, LightstepParams) {
      assert "metric" in LightstepParams;
    }
  }

  /**
   * A configuration the registry validates builds its source whenever it carries no key the
   * constructor does not take: validation and construction agree on everything they share.
   */
  lemma ValidatedBuilds(indicator: int, config: Dict)
    requires ValidateConfig(config).Ok?
    requires var rest := Remove(config, "type");
      "indicator" !in Keys(rest) &&
      forall k :: k in Keys(rest) ==> k in (if Get(config, "type") == Some(Str("lightstep")) then LightstepParams else ZmonParams)
    ensures FromIndicator(indicator, config).Ok?
  {
    SourceClassAccepts(config);
    var rest := Remove(config, "type");
    if Get(config, "type") == Some(Str("lightstep")) {
      Lightstep.ValidateConfigMeaning(rest);
      assert "stream_id" in Keys(rest) by {
        assert Truthy(GetOr(rest, "stream_id", Null));
      }
      assert "metric" in Keys(rest);
      assert Binds(rest, LightstepParams, LightstepParams);
    } else {
      assert Zmon.HasRequiredKeys(rest);
      assert "check_id" in Zmon.RequiredKeys && "keys" in Zmon.RequiredKeys && "aggregation" in Zmon.RequiredKeys;
    }
  }

  /** A valid ZMON configuration with one key its constructor does not take. */
  const ExtraKeyConfig: Dict := [("check_id", Int(1)), ("keys", Array([Str("k")])),
                                 ("aggregation", Object([("type", Str("sum"))])), ("extra", Null)]

  lemma ExtraKeyConfigValid()
    ensures Zmon.ValidateConfig(ExtraKeyConfig).Ok?
  {
    var config := ExtraKeyConfig;
    assert config[1..][1..][1..] == [("extra", Null)];
    assert Get(config, "keys") == Some(Array([Str("k")]));
    assert Get(config, "aggregation") == Some(Object([("type", Str("sum"))]));
    assert Zmon.AggregationType(config) == Some("sum");
  }

  /**
   * Validation does not look for unknown keys but construction refuses them: a valid ZMON
   * configuration with an extra top-level key cannot be built.
   */
  lemma ValidatedButUnbuildable()
    ensures ValidateConfig(ExtraKeyConfig).Ok?
    ensures FromIndicator(7, ExtraKeyConfig) == Err(Crash("TypeError"))
  {
    var config := ExtraKeyConfig;
    assert "type" !in Keys(config) by {
      assert forall i :: 0 <= i < |config| ==> config[i].0[0] != 't';
    }
    SourceClassAccepts(config);
    assert "extra" in Keys(config) && "extra" !in ZmonParams;
    ExtraKeyConfigValid();
  }
}
