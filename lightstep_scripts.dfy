/**
 * The two early Lightstep scripts, the service's library and the command-line client's copy:
 * the query parameters a metric name asks for, and the extraction of one point per time
 * window from a timeseries answer. They differ in the resolution they ask for, in the
 * timestamps (the library truncates them to the second) and in what a latency metric reads
 * (the library the first latency list, the client the i-th latency entry whole).
 */
module LightstepScripts {
  import opened Wrappers
  import opened OrderedDict
  import opened PyValue
  import Lightstep

  /** The service's library, or the command-line client's copy. */
  datatype Script = Library | Client

  /** The metric names the scripts know. */
  const Metrics: seq<string> := ["ops-count", "error-count", "p50", "p75", "p90", "p99"]

  /** The latency metric names, each `p` and its percentile. */
  const Latencies: seq<string> := ["p50", "p75", "p90", "p99"]

  /** `get_api_params_for_metric`: the one parameter a metric name asks for; none for other names. */
  function MetricParam(metric: string): Option<(string, string)> {
    if metric == "ops-count" then Some(("include-ops-counts", "1"))
    else if metric == "error-count" then Some(("include-error-counts", "1"))
    else if metric == "p50" then Some(("percentile", "50"))
    else if metric == "p75" then Some(("percentile", "75"))
    else if metric == "p90" then Some(("percentile", "90"))
    else if metric == "p99" then Some(("percentile", "99"))
    else None
  }

  /**
   * Exactly the known metrics ask for a parameter: a count metric for its counts, a latency
   * metric `pNN` for percentile NN.
   */
  lemma MetricParamMeaning(metric: string)
    ensures MetricParam(metric).Some? <==> metric in Metrics
    ensures metric == "ops-count" ==> MetricParam(metric) == Some(("include-ops-counts", "1"))
    ensures metric == "error-count" ==> MetricParam(metric) == Some(("include-error-counts", "1"))
    ensures metric in Latencies ==> MetricParam(metric) == Some(("percentile", metric[1..]))
  {
    if metric in Latencies {
      assert "p50"[1..] == "50" && "p75"[1..] == "75" && "p90"[1..] == "90" && "p99"[1..] == "99";
    }
  }

  /** The resolution each script asks for, in milliseconds. */
  function ResolutionMs(script: Script): string {
    match script
    case Library => "600000"
    case Client => "60000"
  }

  /** The parameters `get_stream_data` starts from, for a window given as text. */
  function DefaultParams(script: Script, start: string, end: string, metric: string): Dict {
    [("oldest-time", Str(start)), ("youngest-time", Str(end)), ("resolution-ms", Str(ResolutionMs(script))),
     ("include-ops-counts", Str(if metric == "ops-count" then "1" else "0")),
     ("percentile", Str("90")), ("include-error-counts", Str("1"))]
  }

  /**
   * The defaults ask for the window, the script's resolution, the 90th percentile, error
   * counts, and operation counts only with `ops-count`.
   */
  lemma DefaultParamsRead(script: Script, start: string, end: string, metric: string)
    ensures var defaults := DefaultParams(script, start, end, metric);
      Get(defaults, "oldest-time") == Some(Str(start)) && Get(defaults, "youngest-time") == Some(Str(end)) &&
      Get(defaults, "resolution-ms") == Some(Str(ResolutionMs(script))) &&
      Get(defaults, "percentile") == Some(Str("90")) &&
      Get(defaults, "include-ops-counts") == Some(Str(if metric == "ops-count" then "1" else "0")) &&
      Get(defaults, "include-error-counts") == Some(Str("1"))
  {
    var d := DefaultParams(script, start, end, metric);
    assert "include-ops-counts"[8] == 'o' && "include-error-counts"[8] == 'e';
    assert forall i :: 0 <= i < |d| ==> |d[i].0| > 8 && d[i].0[0] in "oyrpi";
    assert DistinctKeys(d);
    GetEntry(d, 0);
    GetEntry(d, 1);
    GetEntry(d, 2);
    GetEntry(d, 3);
    GetEntry(d, 4);
    GetEntry(d, 5);
  }

  /**
   * `{**defaults, **get_api_params_for_metric(metric)}`: the metric's own parameter
   * overrides the default; unpacking the None of an unknown metric raises TypeError.
   */
  function StreamParams(script: Script, start: string, end: string, metric: string): Result<Dict, string> {
    match MetricParam(metric)
    case None => Err("TypeError")
    case Some(own) => Ok(Update(DefaultParams(script, start, end, metric), [(own.0, Str(own.1))]))
  }

  /**
   * The parameters exist exactly for the known metrics, and then every parameter reads the
   * metric's own value for its own key and the default for every other.
   */
  lemma StreamParamsMeaning(script: Script, start: string, end: string, metric: string)
    ensures StreamParams(script, start, end, metric).Ok? <==> metric in Metrics
    ensures StreamParams(script, start, end, metric).Ok? ==>
      var params, own := StreamParams(script, start, end, metric).value, MetricParam(metric).value;
      forall key :: Get(params, key) == if key == own.0 then Some(Str(own.1)) else Get(DefaultParams(script, start, end, metric), key)
  {
    MetricParamMeaning(metric);
    if metric in Metrics {
      var own := MetricParam(metric).value;
      forall key
        ensures Get(StreamParams(script, start, end, metric).value, key) ==
          if key == own.0 then Some(Str(own.1)) else Get(DefaultParams(script, start, end, metric), key)
      {
        GetUpdate(DefaultParams(script, start, end, metric), [(own.0, Str(own.1))], key);
      }
    }
  }

  /** The parameters' keys are distinct. */
  lemma KeysDiffer()
    ensures "percentile" != "resolution-ms" && "percentile" != "include-ops-counts" && "percentile" != "include-error-counts"
    ensures "include-ops-counts" != "resolution-ms" && "include-ops-counts" != "include-error-counts"
  {
    assert |"percentile"| == 10 && |"resolution-ms"| == 13 && |"include-ops-counts"| == 18 && |"include-error-counts"| == 20;
  }

  /** A latency metric `pNN` asks for percentile NN, for error counts and not for operation counts. */
  lemma LatencyQuery(script: Script, start: string, end: string, metric: string)
    requires metric in Latencies
    ensures var params := StreamParams(script, start, end, metric).value;
      Get(params, "resolution-ms") == Some(Str(ResolutionMs(script))) &&
      Get(params, "percentile") == Some(Str(metric[1..])) &&
      Get(params, "include-ops-counts") == Some(Str("0")) &&
      Get(params, "include-error-counts") == Some(Str("1"))
  {
    var params := StreamParams(script, start, end, metric).value;
    StreamParamsMeaning(script, start, end, metric);
    MetricParamMeaning(metric);
    DefaultParamsRead(script, start, end, metric);
    KeysDiffer();
    assert Get(params, "resolution-ms") == Get(DefaultParams(script, start, end, metric), "resolution-ms");
    assert Get(params, "include-ops-counts") == Get(DefaultParams(script, start, end, metric), "include-ops-counts");
    assert Get(params, "include-error-counts") == Get(DefaultParams(script, start, end, metric), "include-error-counts");
  }

  /** `ops-count` asks for operation counts, for error counts and for the 90th percentile. */
  lemma OpsCountQuery(script: Script, start: string, end: string, metric: string)
    requires metric == "ops-count"
    ensures var params := StreamParams(script, start, end, metric).value;
      Get(params, "resolution-ms") == Some(Str(ResolutionMs(script))) &&
      Get(params, "percentile") == Some(Str("90")) &&
      Get(params, "include-ops-counts") == Some(Str("1")) &&
      Get(params, "include-error-counts") == Some(Str("1"))
  {
    var params := StreamParams(script, start, end, metric).value;
    var defaults := DefaultParams(script, start, end, metric);
    StreamParamsMeaning(script, start, end, metric);
    MetricParamMeaning(metric);
    DefaultParamsRead(script, start, end, metric);
    KeysDiffer();
    assert Get(params, "resolution-ms") == Get(defaults, "resolution-ms");
    assert Get(params, "percentile") == Get(defaults, "percentile");
    assert Get(params, "include-error-counts") == Get(defaults, "include-error-counts");
  }

  /** The library's text of an instant in microseconds: the microseconds dropped, "Z" appended. */
  function LibraryTime(t: int, iso: int -> string): string {
    iso(t / 1000000) + "Z"
  }

  /** The text does not depend on the microseconds. */
  lemma LibraryTimeDropsMicroseconds(t: int, iso: int -> string)
    ensures LibraryTime(t, iso) == LibraryTime(Second(t), iso)
  {
  }

  /** One reading: a number, or a whole latency entry (which the client hands on). */
  datatype Reading = Number(x: real) | Entry(entry: Lightstep.LatencyEntry)

  /** A point: a timestamp in microseconds and its reading. */
  datatype Point = Point(timestamp: int, value: Reading)

  /** `xs[i]` of a list that may be absent: KeyError without it, IndexError past its end. */
  function At<T>(xs: Option<seq<T>>, i: nat): (r: Result<T, string>)
    ensures r.Ok? <==> xs.Some? && i < |xs.value|
    ensures r.Ok? ==> r.value == xs.value[i]
  {
    match xs
    case None => Err("KeyError")
    case Some(s) => if i < |s| then Ok(s[i]) else Err("IndexError")
  }

  /**
   * `get_individual_metric_from_stream(stream_data, i, metric)`: the i-th operation or error
   * count; for any other name the library reads the first latency entry's i-th latency and
   * the client the i-th latency entry.
   */
  function Select(script: Script, attrs: Lightstep.Attributes, i: nat, metric: string): Result<Reading, string> {
    if metric == "ops-count" then
      match At(attrs.opsCounts, i)
      case Err(e) => Err(e)
      case Ok(x) => Ok(Number(x))
    else if metric == "error-count" then
      match At(attrs.errorCounts, i)
      case Err(e) => Err(e)
      case Ok(x) => Ok(Number(x))
    else if script.Client? then
      match At(attrs.latencies, i)
      case Err(e) => Err(e)
      case Ok(entry) => Ok(Entry(entry))
    else
      match At(attrs.latencies, 0)
      case Err(e) => Err(e)
      case Ok(first) =>
        match At(Some(first.latencyMs), i)
        case Err(e) => Err(e)
        case Ok(x) => Ok(Number(x))
  }

  /** An instant truncated to the second. */
  function Second(t: int): int {
    t / 1000000 * 1000000
  }

  /**
   * The i-th point: the i-th window's youngest time, parsed (and truncated to the second by
   * the library), with the i-th reading.
   */
  function PointAt(script: Script, attrs: Lightstep.Attributes, metric: string, parse: string -> int, i: nat): Result<Point, string> {
    match At(attrs.timeWindows, i)
    case Err(e) => Err(e)
    case Ok(window) =>
      match Select(script, attrs, i, metric)
      case Err(e) => Err(e)
      case Ok(v) => Ok(Point(if script.Library? then Second(parse(window)) else parse(window), v))
  }

  /** The first `n` points in window order, or the error of the first that fails. */
  function Points(script: Script, attrs: Lightstep.Attributes, metric: string, parse: string -> int, n: nat): Result<seq<Point>, string>
    decreases n
  {
    if n == 0 then Ok([])
    else
      match Points(script, attrs, metric, parse, n - 1)
      case Err(e) => Err(e)
      case Ok(ps) =>
        match PointAt(script, attrs, metric, parse, n - 1)
        case Err(e) => Err(e)
        case Ok(p) => Ok(ps + [p])
  }

  /** The points of an answer: as many as its points count says (none for a negative count). */
  function Extracted(script: Script, attrs: Lightstep.Attributes, metric: string, parse: string -> int): Result<seq<Point>, string> {
    match attrs.pointsCount
    case None => Err("KeyError")
    case Some(n) => Points(script, attrs, metric, parse, if n < 0 then 0 else n)
  }

  /** Once a point fails, every longer prefix fails with the same error. */
  lemma {:induction false} PointsErrorPersists(script: Script, attrs: Lightstep.Attributes, metric: string, parse: string -> int, k: nat, n: nat)
    requires k <= n && Points(script, attrs, metric, parse, k).Err?
    ensures Points(script, attrs, metric, parse, n) == Points(script, attrs, metric, parse, k)
    decreases n - k
  {
    if k < n {
      PointsErrorPersists(script, attrs, metric, parse, k, n - 1);
    }
  }

  /** `extract_metric_from_stream` of either script: one point per counted window, in order. */
  method ExtractMetric(script: Script, attrs: Lightstep.Attributes, metric: string, parse: string -> int)
    returns (r: Result<seq<Point>, string>)
    ensures r == Extracted(script, attrs, metric, parse)
  {
    if attrs.pointsCount.None? {
      return Err("KeyError");
    }
    var n := attrs.pointsCount.value;
    var result: seq<Point> := [];
    var i: nat := 0;
    while i < n
      invariant n >= 0 ==> i <= n
      invariant n < 0 ==> i == 0
      invariant Points(script, attrs, metric, parse, i) == Ok(result)
    {
      var p := PointAt(script, attrs, metric, parse, i);
      if p.Err? {
        assert Points(script, attrs, metric, parse, i + 1) == Err(p.error);
        PointsErrorPersists(script, attrs, metric, parse, i + 1, n);
        return Err(p.error);
      }
      result := result + [p.value];
      i := i + 1;
    }
    return Ok(result);
  }

  /**
   * The first `n` points exist exactly when each of them does; they are then those points,
   * in window order.
   */
  lemma {:induction false} PointsMeaning(script: Script, attrs: Lightstep.Attributes, metric: string, parse: string -> int, n: nat)
    ensures Points(script, attrs, metric, parse, n).Ok? <==> forall i :: 0 <= i < n ==> PointAt(script, attrs, metric, parse, i).Ok?
    ensures Points(script, attrs, metric, parse, n).Ok? ==>
      |Points(script, attrs, metric, parse, n).value| == n &&
      forall i :: 0 <= i < n ==> PointAt(script, attrs, metric, parse, i) == Ok(Points(script, attrs, metric, parse, n).value[i])
    decreases n
  {
    if n > 0 {
      PointsMeaning(script, attrs, metric, parse, n - 1);
    }
  }

  /**
   * With a count metric, both scripts fail or succeed together and read the same values;
   * the library's timestamps are the client's truncated to the second.
   */
  lemma ScriptsAgreeOnCounts(attrs: Lightstep.Attributes, metric: string, parse: string -> int, n: nat)
    requires metric == "ops-count" || metric == "error-count"
    ensures Points(Library, attrs, metric, parse, n).Ok? <==> Points(Client, attrs, metric, parse, n).Ok?
    ensures Points(Library, attrs, metric, parse, n).Ok? ==>
      var lib, cli := Points(Library, attrs, metric, parse, n).value, Points(Client, attrs, metric, parse, n).value;
      |lib| == |cli| == n &&
      forall i :: 0 <= i < n ==> lib[i].value == cli[i].value && lib[i].timestamp == Second(cli[i].timestamp)
  {
    PointsMeaning(Library, attrs, metric, parse, n);
    PointsMeaning(Client, attrs, metric, parse, n);
    assert forall i :: 0 <= i < n ==> (PointAt(Library, attrs, metric, parse, i).Ok? <==> PointAt(Client, attrs, metric, parse, i).Ok?);
  }

  /**
   * The library reads every latency metric from the first latency entry, whatever its
   * percentile: two latency metrics give the same points.
   */
  lemma {:induction false} LibraryLatencyIgnoresPercentile(attrs: Lightstep.Attributes, m1: string, m2: string, parse: string -> int, n: nat)
    requires m1 in Latencies && m2 in Latencies
    ensures Points(Library, attrs, m1, parse, n) == Points(Library, attrs, m2, parse, n)
    ensures Points(Library, attrs, m1, parse, n).Ok? && n > 0 ==>
      var ps := Points(Library, attrs, m1, parse, n).value;
      attrs.latencies.Some? && |attrs.latencies.value| > 0 && |ps| == n &&
      forall i :: 0 <= i < n ==> i < |attrs.latencies.value[0].latencyMs| && ps[i].value == Number(attrs.latencies.value[0].latencyMs[i])
    decreases n
  {
    if n > 0 {
      LibraryLatencyIgnoresPercentile(attrs, m1, m2, parse, n - 1);
      assert PointAt(Library, attrs, m1, parse, n - 1) == PointAt(Library, attrs, m2, parse, n - 1);
    }
    PointsMeaning(Library, attrs, m1, parse, n);
  }

  /**
   * The client hands on the i-th latency entry whole, whatever the metric's percentile and
   * whatever the entry's own, and keeps the parsed timestamps as they are.
   */
  lemma ClientLatencyEntries(attrs: Lightstep.Attributes, metric: string, parse: string -> int, n: nat)
    requires metric in Latencies
    ensures Points(Client, attrs, metric, parse, n).Ok? && n > 0 ==>
      var ps := Points(Client, attrs, metric, parse, n).value;
      attrs.timeWindows.Some? && attrs.latencies.Some? && |ps| == n &&
      forall i :: 0 <= i < n ==>
        (i < |attrs.timeWindows.value| && i < |attrs.latencies.value| &&
         ps[i] == Point(parse(attrs.timeWindows.value[i]), Entry(attrs.latencies.value[i])))
  {
    PointsMeaning(Client, attrs, metric, parse, n);
  }

  /**
   * `get_stream_data` of either script for a window given as text and the answer the API
   * gives: unknown metrics raise before asking; the library raises on an "errors" entry,
   * which the client does not look at; then the points of `["data"]["attributes"]`.
   */
  function StreamData(script: Script, start: string, end: string, metric: string, response: Lightstep.Response,
                      parse: string -> int): Result<seq<Point>, string>
  {
    if StreamParams(script, start, end, metric).Err? then Err(StreamParams(script, start, end, metric).error)
    else if script.Library? && Truthy(response.errors) then Err("Exception")
    else
      match response.attributes
      case None => Err("KeyError")
      case Some(attrs) => Extracted(script, attrs, metric, parse)
  }

  /**
   * Only known metrics give points; the library gives none for an answer with errors, while
   * the client extracts an answer the same with or without them.
   */
  lemma StreamDataMeaning(script: Script, start: string, end: string, metric: string, response: Lightstep.Response,
                          parse: string -> int)
    ensures StreamData(script, start, end, metric, response, parse).Ok? ==> metric in Metrics
    ensures script.Library? && Truthy(response.errors) ==> StreamData(script, start, end, metric, response, parse).Err?
    ensures StreamData(Client, start, end, metric, response, parse) ==
      StreamData(Client, start, end, metric, response.(errors := Null), parse)
  {
    StreamParamsMeaning(script, start, end, metric);
  }
}
