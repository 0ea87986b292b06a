/**
 * The older single-module source layer (`app/resources/sli/sources.py`), kept beside the
 * package that replaced it. Its ZMON check, KairosDB query and aggregation are the package's
 * own text and are modelled once, in `Zmon` and `Kairos`; what differs is modelled here: its
 * Lightstep metrics, its update path, and its dispatch, which cannot build a source at all.
 */
module Legacy {
  import opened Wrappers
  import opened PyStr
  import opened OrderedDict
  import opened PyValue
  import opened SourceBase
  import Kairos
  import Zmon
  import Lightstep
  import Sources

  // ---------------------------------------------------------------------------------------
  // ZMON

  /**
   * `ZMON.update_indicator_values` as written. Without a relative start it first asks
   * `_get_timespan_for_update`, which reaches for `datetime.datetime.timedelta` and fails;
   * with one, a non-empty query result reaches the undefined `kwargs`; only an empty result
   * returns, with 0.
   */
  function UpdateIndicatorValues(src: Kairos.ZmonSource, fnmatch: Kairos.Matcher, rs: seq<Kairos.Series>,
                                 from: int): (r: Result<nat, Error>)
    ensures r.Ok? ==> r.value == 0
  {
    if from == 0 then Err(Crash("AttributeError"))
    else if |Kairos.QueryResult(src, fnmatch, rs)| > 0 then Err(Crash("NameError"))
    else Ok(0)
  }

  /**
   * The update returns only when the query found nothing, and then the package's update
   * (the same query) would have written nothing and counted nothing either; a query with a
   * known aggregation and any counted reading makes it fail.
   */
  lemma UpdateVersions(src: Kairos.ZmonSource, fnmatch: Kairos.Matcher, rs: seq<Kairos.Series>, from: int,
                       values: Zmon.Store, id: int)
    ensures UpdateIndicatorValues(src, fnmatch, rs, from).Ok? <==>
      from != 0 && Kairos.QueryResult(src, fnmatch, rs) == []
    ensures UpdateIndicatorValues(src, fnmatch, rs, from).Ok? ==>
      Zmon.Stored(values, id, Kairos.QueryResult(src, fnmatch, rs)) == values
    ensures (from != 0 && src.aggType in Kairos.AggregationTypes &&
             exists i :: 0 <= i < |rs| && Kairos.Counted(src, fnmatch, rs[i])) ==>
      UpdateIndicatorValues(src, fnmatch, rs, from) == Err(Crash("NameError"))
  {
    if from != 0 && src.aggType in Kairos.AggregationTypes &&
       exists i :: 0 <= i < |rs| && Kairos.Counted(src, fnmatch, rs[i]) {
      var i :| 0 <= i < |rs| && Kairos.Counted(src, fnmatch, rs[i]);
      var minute := Kairos.MinuteOf(rs[i].values[0].0);
      Kairos.QueryResultMinutes(src, fnmatch, rs, minute);
      assert Kairos.HitsMinute(rs[i], minute);
      assert minute in Keys(Kairos.QueryResult(src, fnmatch, rs));
    }
  }

  // ---------------------------------------------------------------------------------------
  // Lightstep metrics

  /** The members of `Lightstep.Metric`, in definition order. */
  datatype Metric = OpsCount | ErrorsCount | LatencyP50 | LatencyP75 | LatencyP90 | LatencyP99

  function MemberName(m: Metric): string {
    match m
    case OpsCount => "OPS_COUNT"
    case ErrorsCount => "ERRORS_COUNT"
    case LatencyP50 => "LATENCY_P50"
    case LatencyP75 => "LATENCY_P75"
    case LatencyP90 => "LATENCY_P90"
    case LatencyP99 => "LATENCY_P99"
  }

  /** The member's value: the attribute list it reads, or its percentile. */
  function MemberValue(m: Metric): string {
    match m
    case OpsCount => "ops-counts"
    case ErrorsCount => "error-counts"
    case LatencyP50 => "50"
    case LatencyP75 => "75"
    case LatencyP90 => "90"
    case LatencyP99 => "99"
  }

  /** `Metric[name]`, None for a KeyError. */
  function Lookup(name: string): (r: Option<Metric>)
    ensures r.Some? ==> MemberName(r.value) == name
    ensures r.None? ==> forall m: Metric :: MemberName(m) != name
  {
    if name == "OPS_COUNT" then Some(OpsCount)
    else if name == "ERRORS_COUNT" then Some(ErrorsCount)
    else if name == "LATENCY_P50" then Some(LatencyP50)
    else if name == "LATENCY_P75" then Some(LatencyP75)
    else if name == "LATENCY_P90" then Some(LatencyP90)
    else if name == "LATENCY_P99" then Some(LatencyP99)
    else None
  }

  /** `Metric.from_str`: upper-case, dashes to underscores, then the name lookup. */
  function FromStr(s: string): (r: Option<Metric>)
    ensures r.Some? ==> MemberName(r.value) == ReplaceChar(Upper(s), '-', '_')
    ensures r.None? ==> forall m: Metric :: MemberName(m) != ReplaceChar(Upper(s), '-', '_')
  {
    Lookup(ReplaceChar(Upper(s), '-', '_'))
  }

  predicate IsLatency(m: Metric) {
    StartsWith(MemberName(m), "LATENCY_")
  }

  /** `Metric.to_request`: a latency member asks for its percentile, a count member includes its list. */
  function ToRequest(m: Metric): Dict {
    if IsLatency(m) then [("percentile", Str(MemberValue(m)))]
    else [("include-" + MemberValue(m), Int(1))]
  }

  /** The package member a legacy member became. */
  function Successor(m: Metric): Lightstep.Metric {
    match m
    case OpsCount => Lightstep.OperationCount
    case ErrorsCount => Lightstep.ErrorCount
    case LatencyP50 => Lightstep.LatencyP50
    case LatencyP75 => Lightstep.LatencyP75
    case LatencyP90 => Lightstep.LatencyP90
    case LatencyP99 => Lightstep.LatencyP99
  }

  /** Every legacy member asks for exactly what its package successor asks for. */
  lemma ToRequestVersions(m: Metric)
    ensures ToRequest(m) == Lightstep.ToRequest(Successor(m))
    ensures IsLatency(m) <==> Lightstep.ImplOf(Successor(m)).Latency?
  {
    assert "OPS_COUNT"[0] != 'L' && "ERRORS_COUNT"[0] != 'L';
    assert StartsWith("LATENCY_P50", "LATENCY_") by { assert "LATENCY_P50"[..8] == "LATENCY_"; }
    assert StartsWith("LATENCY_P75", "LATENCY_") by { assert "LATENCY_P75"[..8] == "LATENCY_"; }
    assert StartsWith("LATENCY_P90", "LATENCY_") by { assert "LATENCY_P90"[..8] == "LATENCY_"; }
    assert StartsWith("LATENCY_P99", "LATENCY_") by { assert "LATENCY_P99"[..8] == "LATENCY_"; }
  }

  /**
   * The two versions spell their metrics differently: the legacy names are refused by the
   * package and the package names by the legacy code.
   */
  lemma FromStrVersions()
    ensures FromStr("ops-count") == Some(OpsCount)
    ensures Lightstep.FromStr("ops-count") == None
    ensures Lightstep.FromStr("operation-count") == Some(Lightstep.OperationCount)
    ensures FromStr("operation-count") == None
    ensures FromStr("latency-p50") == Some(LatencyP50) && Lightstep.FromStr("latency-p50") == Some(Lightstep.LatencyP50)
  {
    assert ReplaceChar(Upper("ops-count"), '-', '_') == "OPS_COUNT";
    assert ReplaceChar(Upper("operation-count"), '-', '_') == "OPERATION_COUNT";
    assert ReplaceChar(Upper("latency-p50"), '-', '_') == "LATENCY_P50";
  }

  /** The no-match message of a latency member. */
  function NoLatencyMessage(p: string): string {
    "No latencies found for " + p + "th percentile in timeseries."
  }

  /**
   * `Metric.get_datapoints`: a latency member takes the first entry of its percentile and
   * fails with a source error when there is none; a count member reads its list; the values
   * are paired with the windows' youngest times, as far as both reach.
   */
  function Datapoints(m: Metric, attrs: Lightstep.Attributes): (r: Result<seq<(string, real)>, Error>)
    ensures r.Ok? ==> attrs.timeWindows.Some? && |r.value| <= |attrs.timeWindows.value|
    ensures r.Ok? ==> forall i :: 0 <= i < |r.value| ==> r.value[i].0 == attrs.timeWindows.value[i]
  {
    var values: Result<seq<real>, Error> :=
      if IsLatency(m) then
        match attrs.latencies
        case None => Err(Crash("KeyError"))
        case Some(entries) =>
          match Lightstep.FirstLatency(entries, MemberValue(m))
          case None => Err(SourceError(NoLatencyMessage(MemberValue(m))))
          case Some(k) => Ok(entries[k].latencyMs)
      else
        match Lightstep.CountList(attrs, MemberValue(m))
        case None => Err(Crash("KeyError"))
        case Some(xs) => Ok(xs);
    match values
    case Err(e) => Err(e)
    case Ok(vs) =>
      match attrs.timeWindows
      case None => Err(Crash("KeyError"))
      case Some(windows) => Ok(Lightstep.Zip(windows, vs))
  }

  /**
   * Where the legacy extraction answers it agrees with the package's; the one place they part
   * is a latency member whose percentile is missing, a source error here and no values there.
   */
  lemma DatapointsVersions(m: Metric, attrs: Lightstep.Attributes, resolution: int)
    ensures Datapoints(m, attrs).Ok? ==>
      Lightstep.FromResponse(Successor(m), attrs, resolution) == Datapoints(m, attrs)
    ensures (Datapoints(m, attrs).Err? && Datapoints(m, attrs).error.Crash?) ==>
      Lightstep.FromResponse(Successor(m), attrs, resolution).Err?
    ensures (IsLatency(m) && attrs.latencies.Some? && attrs.timeWindows.Some? &&
             Lightstep.FirstLatency(attrs.latencies.value, MemberValue(m)).None?) ==>
      Datapoints(m, attrs) == Err(SourceError(NoLatencyMessage(MemberValue(m)))) &&
      Lightstep.FromResponse(Successor(m), attrs, resolution) == Ok([])
  {
    ToRequestVersions(m);
  }

  // ---------------------------------------------------------------------------------------
  // Lightstep values

  /** The fixed resolution of the legacy request, in milliseconds. */
  const ResolutionMs: string := "600000"

  function RequestParams(m: Metric, range: TimeRange, iso: int -> string): Dict {
    Update([("oldest-time", Str(iso(range.start))), ("youngest-time", Str(iso(range.end))),
            ("resolution-ms", Str(ResolutionMs))], ToRequest(m))
  }

  /**
   * `Lightstep.get_indicator_values`: the whole range at the fixed resolution; a 401 or an
   * "errors" entry is a source error; the readings carry no pagination.
   */
  function GetIndicatorValues(m: Metric, range: TimeRange, iso: int -> string, parse: string -> int,
                              response: Lightstep.Response): (f: Lightstep.Fetch)
    ensures f.outcome.Ok? ==> f.outcome.value.1.None?
    ensures f.params == RequestParams(m, range, iso)
  {
    var params := RequestParams(m, range, iso);
    if response.status == 401 then Lightstep.Fetch(params, Err(SourceError(Lightstep.ApiKeyMessage)))
    else if Truthy(response.errors) then Lightstep.Fetch(params, Err(SourceError(Lightstep.ApiErrorMessage)))
    else
      match response.attributes
      case None => Lightstep.Fetch(params, Err(Crash("KeyError")))
      case Some(attrs) =>
        match Datapoints(m, attrs)
        case Err(e) => Lightstep.Fetch(params, Err(e))
        case Ok(pairs) => Lightstep.Fetch(params, Ok((Lightstep.Readings(pairs, parse), None)))
  }

  /** "600000" is the package's default resolution in milliseconds, as the package writes it. */
  lemma ResolutionVersions()
    ensures IntToString(Lightstep.DefaultResolution * 1000) == ResolutionMs
  {
    assert NatToString(600000) == "600000" by {
      assert NatToString(6) == "6";
      assert NatToString(60) == "60";
      assert NatToString(600) == "600";
      assert NatToString(6000) == "6000";
      assert NatToString(60000) == "60000";
    }
  }

  /**
   * An unpaged legacy request is the package's request for the same range at the package's
   * default resolution. Where the legacy extraction answers, so does the package's intended
   * reader with the same readings, while the package as written raises TypeError for every
   * metric but the operation rate.
   */
  lemma GetIndicatorValuesVersions(m: Metric, range: TimeRange, iso: int -> string, parse: string -> int,
                                   response: Lightstep.Response)
    ensures GetIndicatorValues(m, range, iso, parse, response).params ==
      Lightstep.GetIndicatorValues(Lightstep.Intended, Successor(m), range, 0, 0, 0, iso, parse, response).params
    ensures GetIndicatorValues(m, range, iso, parse, response).outcome.Ok? ==>
      GetIndicatorValues(m, range, iso, parse, response).outcome ==
      Lightstep.GetIndicatorValues(Lightstep.Intended, Successor(m), range, 0, 0, 0, iso, parse, response).outcome
    ensures GetIndicatorValues(m, range, iso, parse, response).outcome.Ok? && Successor(m) != Lightstep.OperationRate ==>
      Lightstep.GetIndicatorValues(Lightstep.AsWritten, Successor(m), range, 0, 0, 0, iso, parse, response).outcome ==
      Err(Crash("TypeError"))
  {
    Lightstep.GetIndicatorValuesAsWritten(Successor(m), range, 0, 0, 0, iso, parse, response);
    ToRequestVersions(m);
    ResolutionVersions();
    Lightstep.PaginateTimerangeUnpaged(range, Lightstep.DefaultResolution, 0, 0);
    if response.status != 401 && !Truthy(response.errors) && response.attributes.Some? {
      DatapointsVersions(m, response.attributes.value, Lightstep.DefaultResolution);
    }
  }

  // ---------------------------------------------------------------------------------------
  // Dispatch

  /**
   * `validate_config`: the registry is the package's; ZMON's check is the package's, and the
   * legacy Lightstep class has no check of its own, so the base class's raises.
   */
  function ValidateConfig(config: Dict): Result<(), Error> {
    match Sources.SourceClassFromConfig(config)
    case Err(e) => Err(e)
    case Ok((kind, rest)) =>
      if kind == Sources.ZmonKind then Zmon.ValidateConfig(rest) else Err(Crash("NotImplementedError"))
  }

  /** The two versions agree on every configuration except the ones typed "lightstep". */
  lemma ValidateConfigVersions(config: Dict)
    ensures Get(config, "type") != Some(Str("lightstep")) ==> ValidateConfig(config) == Sources.ValidateConfig(config)
    ensures Get(config, "type") == Some(Str("lightstep")) ==> ValidateConfig(config) == Err(Crash("NotImplementedError"))
  {
    Sources.SourceClassAccepts(config);
  }

  /**
   * `from_indicator`: the classes here take `indicator_id`, but they are called with
   * `indicator=`, so every registered type fails to build.
   */
  function FromIndicator(indicator: int, source: Dict): (r: Result<Sources.Instance, Error>)
    ensures r.Err?
  {
    match Sources.SourceClassFromConfig(source)
    case Err(e) => Err(e)
    case Ok(_) => Err(Crash("TypeError"))
  }

  /** Every configuration the package builds fails here with a TypeError. */
  lemma FromIndicatorVersions(indicator: int, source: Dict)
    ensures Sources.FromIndicator(indicator, source).Ok? ==> FromIndicator(indicator, source) == Err(Crash("TypeError"))
  {
  }
}
