/**
 * The shared Lightstep metric enumeration of the command-line tools: the query parameters a
 * metric asks for and the extraction of a timeseries, which selects the metric's values and
 * returns one timestamp per time window. The timestamp parser is a parameter.
 */
module LightstepCommon {
  import opened Wrappers
  import opened PyStr
  import opened PyValue
  import opened OrderedDict
  import Lightstep
  import Legacy

  /** The members of `Metric`, in definition order. */
  datatype Metric = Ops | Errors | LatencyP50 | LatencyP75 | LatencyP90 | LatencyP99

  function Name(m: Metric): string {
    match m
    case Ops => "OPS"
    case Errors => "ERRORS"
    case LatencyP50 => "LATENCY_P50"
    case LatencyP75 => "LATENCY_P75"
    case LatencyP90 => "LATENCY_P90"
    case LatencyP99 => "LATENCY_P99"
  }

  /** The member's value: the attribute list it reads, or its percentile. */
  function MemberValue(m: Metric): string {
    match m
    case Ops => "ops-counts"
    case Errors => "error-counts"
    case LatencyP50 => "50"
    case LatencyP75 => "75"
    case LatencyP90 => "90"
    case LatencyP99 => "99"
  }

  /** `to_request`: a `LATENCY_` member asks for its percentile, any other includes its list. */
  function ToRequest(m: Metric): Dict {
    if StartsWith(Name(m), "LATENCY_") then [("percentile", Str(MemberValue(m)))]
    else [("include-" + MemberValue(m), Int(1))]
  }

  /** The service's legacy member of the same value. */
  function Twin(m: Metric): Legacy.Metric {
    match m
    case Ops => Legacy.OpsCount
    case Errors => Legacy.ErrorsCount
    case LatencyP50 => Legacy.LatencyP50
    case LatencyP75 => Legacy.LatencyP75
    case LatencyP90 => Legacy.LatencyP90
    case LatencyP99 => Legacy.LatencyP99
  }

  /**
   * The count members include their own list and the latency members ask for their
   * percentile, exactly as the service's legacy members of the same value do, although the
   * count members are named differently.
   */
  lemma ToRequestMeaning(m: Metric)
    ensures ToRequest(m) == Legacy.ToRequest(Twin(m))
    ensures MemberValue(m) == Legacy.MemberValue(Twin(m)) && Name(m) != Legacy.MemberName(Twin(m)) <==> m.Ops? || m.Errors?
    ensures m.Ops? ==> ToRequest(m) == [("include-ops-counts", Int(1))]
    ensures m.Errors? ==> ToRequest(m) == [("include-error-counts", Int(1))]
    ensures !m.Ops? && !m.Errors? ==> ToRequest(m) == [("percentile", Str(MemberValue(m)))]
  {
    Legacy.ToRequestVersions(Twin(m));
    assert "OPS"[0] != 'L' && "ERRORS"[0] != 'L';
    assert "include-" + "ops-counts" == "include-ops-counts" && "include-" + "error-counts" == "include-error-counts";
    assert |"OPS"| != |"OPS_COUNT"| && |"ERRORS"| != |"ERRORS_COUNT"|;
    assert StartsWith("LATENCY_P50", "LATENCY_") by { assert "LATENCY_P50"[..8] == "LATENCY_"; }
    assert StartsWith("LATENCY_P75", "LATENCY_") by { assert "LATENCY_P75"[..8] == "LATENCY_"; }
    assert StartsWith("LATENCY_P90", "LATENCY_") by { assert "LATENCY_P90"[..8] == "LATENCY_"; }
    assert StartsWith("LATENCY_P99", "LATENCY_") by { assert "LATENCY_P99"[..8] == "LATENCY_"; }
  }

  /** An exception: its class and its message. */
  datatype Failure = Failure(kind: string, message: string)

  /** The message of a latency member whose percentile is missing. */
  function NoLatencyMessage(p: string): string {
    "No latencies for " + p + "th percentile in timeseries."
  }

  /**
   * The values `datapoints` selects: a count member's list, a latency member's first entry
   * of its percentile; a missing list raises KeyError, a missing percentile ValueError.
   */
  function Values(m: Metric, attrs: Lightstep.Attributes): Result<seq<real>, Failure> {
    if m.Ops? || m.Errors? then
      match Lightstep.CountList(attrs, MemberValue(m))
      case None => Err(Failure("KeyError", MemberValue(m)))
      case Some(xs) => Ok(xs)
    else
      match attrs.latencies
      case None => Err(Failure("KeyError", "latencies"))
      case Some(entries) =>
        match Lightstep.FirstLatency(entries, MemberValue(m))
        case None => Err(Failure("ValueError", NoLatencyMessage(MemberValue(m))))
        case Some(k) => Ok(entries[k].latencyMs)
  }

  /**
   * The values are selected exactly when the member's list, or an entry of its percentile,
   * is there; a latency member then reads the first entry of its percentile.
   */
  lemma ValuesMeaning(m: Metric, attrs: Lightstep.Attributes)
    ensures m.Ops? ==> Values(m, attrs).Ok? == attrs.opsCounts.Some? && (Values(m, attrs).Ok? ==> Values(m, attrs).value == attrs.opsCounts.value)
    ensures m.Errors? ==> Values(m, attrs).Ok? == attrs.errorCounts.Some? && (Values(m, attrs).Ok? ==> Values(m, attrs).value == attrs.errorCounts.value)
    ensures !m.Ops? && !m.Errors? ==>
      (Values(m, attrs).Ok? <==> attrs.latencies.Some? && exists j :: 0 <= j < |attrs.latencies.value| && attrs.latencies.value[j].percentile == MemberValue(m))
    ensures !m.Ops? && !m.Errors? && Values(m, attrs).Ok? ==>
      exists j :: 0 <= j < |attrs.latencies.value| && attrs.latencies.value[j].percentile == MemberValue(m) &&
        Values(m, attrs).value == attrs.latencies.value[j].latencyMs &&
        forall k :: 0 <= k < j ==> attrs.latencies.value[k].percentile != MemberValue(m)
    ensures !m.Ops? && !m.Errors? && attrs.latencies.Some? && Values(m, attrs).Err? ==>
      Values(m, attrs).error == Failure("ValueError", NoLatencyMessage(MemberValue(m)))
  {
    if !m.Ops? && !m.Errors? && attrs.latencies.Some? {
      var found := Lightstep.FirstLatency(attrs.latencies.value, MemberValue(m));
      if found.Some? {
        assert attrs.latencies.value[found.value].percentile == MemberValue(m);
      }
    }
  }

  /**
   * `datapoints` as written: after selecting the values it parses each window's youngest
   * time with `pendulum`, which the file never imports, so any window raises NameError; the
   * attributes are read from the timeseries itself.
   */
  function DatapointsAsWritten(m: Metric, timeseries: Option<Lightstep.Attributes>): Result<seq<int>, Failure> {
    match timeseries
    case None => Err(Failure("KeyError", "attributes"))
    case Some(attrs) =>
      match Values(m, attrs)
      case Err(e) => Err(e)
      case Ok(_) =>
        match attrs.timeWindows
        case None => Err(Failure("KeyError", "time-windows"))
        case Some(windows) => if |windows| == 0 then Ok([]) else Err(Failure("NameError", "pendulum"))
  }

  /** The youngest times of the windows, parsed. */
  function Timestamps(windows: seq<string>, parse: string -> int): (r: seq<int>)
    ensures |r| == |windows|
    ensures forall i :: 0 <= i < |windows| ==> r[i] == parse(windows[i])
  {
    seq(|windows|, i requires 0 <= i < |windows| => parse(windows[i]))
  }

  /**
   * `datapoints` with its parser imported: once the values are selected, one parsed
   * timestamp per time window (the values themselves are not returned).
   */
  function Datapoints(m: Metric, timeseries: Option<Lightstep.Attributes>, parse: string -> int): Result<seq<int>, Failure> {
    match timeseries
    case None => Err(Failure("KeyError", "attributes"))
    case Some(attrs) =>
      match Values(m, attrs)
      case Err(e) => Err(e)
      case Ok(_) =>
        match attrs.timeWindows
        case None => Err(Failure("KeyError", "time-windows"))
        case Some(windows) => Ok(Timestamps(windows, parse))
  }

  /**
   * A timeseries gives timestamps exactly when it has attributes, the member's values and
   * its time windows; they are then the windows' youngest times in order, whatever the
   * values are, and the failures are the same as written.
   */
  lemma DatapointsMeaning(m: Metric, timeseries: Option<Lightstep.Attributes>, parse: string -> int)
    ensures Datapoints(m, timeseries, parse).Ok? <==>
      timeseries.Some? && Values(m, timeseries.value).Ok? && timeseries.value.timeWindows.Some?
    ensures Datapoints(m, timeseries, parse).Ok? ==>
      var windows := timeseries.value.timeWindows.value;
      |Datapoints(m, timeseries, parse).value| == |windows| &&
      forall i :: 0 <= i < |windows| ==> Datapoints(m, timeseries, parse).value[i] == parse(windows[i])
    ensures Datapoints(m, timeseries, parse).Err? <==>
      (DatapointsAsWritten(m, timeseries).Err? && DatapointsAsWritten(m, timeseries).error.kind != "NameError")
    ensures Datapoints(m, timeseries, parse).Err? ==> Datapoints(m, timeseries, parse) == DatapointsAsWritten(m, timeseries)
  {
    assert "NameError"[0] != "KeyError"[0] && "NameError"[0] != "ValueError"[0];
  }

  /**
   * As written, a timeseries whose values are there and which has at least one time window
   * raises NameError where the timestamps were meant to be returned; only a timeseries
   * without windows gets through, with no timestamps.
   */
  lemma DatapointsAsWrittenFails(m: Metric, attrs: Lightstep.Attributes, parse: string -> int)
    requires Values(m, attrs).Ok? && attrs.timeWindows.Some? && |attrs.timeWindows.value| > 0
    ensures DatapointsAsWritten(m, Some(attrs)) == Err(Failure("NameError", "pendulum"))
    ensures Datapoints(m, Some(attrs), parse).Ok? && |Datapoints(m, Some(attrs), parse).value| == |attrs.timeWindows.value|
  {
  }
}
