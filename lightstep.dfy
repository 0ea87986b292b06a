/**
 * The Lightstep SLI source: its metrics (what each asks Lightstep for and how it reads the
 * time series answer), the page window arithmetic, validation of its configuration and the
 * handling of the timeseries response. The HTTP request itself is not modelled: the
 * response is an input.
 */
module Lightstep {
  import opened Wrappers
  import opened PyStr
  import opened OrderedDict
  import opened PyValue
  import opened SourceBase

  /** LIGHTSTEP_RESOLUTION_SECONDS */
  const DefaultResolution: int := 600

  // ---------------------------------------------------------------------------------------
  // The timeseries answer

  datatype LatencyEntry = LatencyEntry(percentile: string, latencyMs: seq<real>)

  /**
   * `response["data"]["attributes"]`: each list is None when the key is absent; a time window
   * is represented by its "youngest-time" text.
   */
  datatype Attributes = Attributes(
    latencies: Option<seq<LatencyEntry>>,
    opsCounts: Option<seq<real>>,
    errorCounts: Option<seq<real>>,
    timeWindows: Option<seq<string>>,
    pointsCount: Option<int>)

  // ---------------------------------------------------------------------------------------
  // Metrics

  /** The members of `_Metric`, in definition order. */
  datatype Metric =
    | OperationCount | OperationRate | ErrorCount | ErrorPercentage
    | LatencyP50 | LatencyP75 | LatencyP90 | LatencyP99

  const Members: seq<Metric> :=
    [OperationCount, OperationRate, ErrorCount, ErrorPercentage,
     LatencyP50, LatencyP75, LatencyP90, LatencyP99]

  /** The implementations behind the members. */
  datatype Impl = RawCount(name: string) | Rate | ErrorRatio | Latency(percentile: string)

  function ImplOf(m: Metric): Impl {
    match m
    case OperationCount => RawCount("ops-counts")
    case OperationRate => Rate
    case ErrorCount => RawCount("error-counts")
    case ErrorPercentage => ErrorRatio
    case LatencyP50 => Latency("50")
    case LatencyP75 => Latency("75")
    case LatencyP90 => Latency("90")
    case LatencyP99 => Latency("99")
  }

  function MemberName(m: Metric): string {
    match m
    case OperationCount => "OPERATION_COUNT"
    case OperationRate => "OPERATION_RATE"
    case ErrorCount => "ERROR_COUNT"
    case ErrorPercentage => "ERROR_PERCENTAGE"
    case LatencyP50 => "LATENCY_P50"
    case LatencyP75 => "LATENCY_P75"
    case LatencyP90 => "LATENCY_P90"
    case LatencyP99 => "LATENCY_P99"
  }

  /** `_Metric.names()`: the lower-cased member names. */
  function Names(): (r: seq<string>)
    ensures |r| == |Members|
    ensures forall i :: 0 <= i < |Members| ==> r[i] == Lower(MemberName(Members[i]))
  {
    seq(|Members|, i requires 0 <= i < |Members| => Lower(MemberName(Members[i])))
  }

  /** `_Metric[name]`: the member of that name, None for a KeyError. */
  function Lookup(name: string): (r: Option<Metric>)
    ensures r.Some? ==> MemberName(r.value) == name
    ensures r.None? ==> forall m: Metric :: MemberName(m) != name
  {
    if name == "OPERATION_COUNT" then Some(OperationCount)
    else if name == "OPERATION_RATE" then Some(OperationRate)
    else if name == "ERROR_COUNT" then Some(ErrorCount)
    else if name == "ERROR_PERCENTAGE" then Some(ErrorPercentage)
    else if name == "LATENCY_P50" then Some(LatencyP50)
    else if name == "LATENCY_P75" then Some(LatencyP75)
    else if name == "LATENCY_P90" then Some(LatencyP90)
    else if name == "LATENCY_P99" then Some(LatencyP99)
    else None
  }

  /** `_Metric.from_str`: upper-case, dashes to underscores, then the name lookup. */
  function FromStr(s: string): (r: Option<Metric>)
    ensures r.Some? <==> exists m: Metric :: MemberName(m) == ReplaceChar(Upper(s), '-', '_')
    ensures r.Some? ==> MemberName(r.value) == ReplaceChar(Upper(s), '-', '_')
  {
    var r := Lookup(ReplaceChar(Upper(s), '-', '_'));
    assert r.Some? ==> MemberName(r.value) == ReplaceChar(Upper(s), '-', '_');
    r
  }

  /** Member names are upper-case letters, digits and underscores. */
  predicate NameChars(s: string) {
    forall i :: 0 <= i < |s| ==> IsUpper(s[i]) || IsDigit(s[i]) || s[i] == '_'
  }

  lemma UpperLowerName(s: string)
    requires NameChars(s)
    ensures ReplaceChar(Upper(Lower(s)), '-', '_') == s
  {
  }

  /** A member's listed name parses back to the member. */
  lemma FromStrName(m: Metric)
    ensures FromStr(Lower(MemberName(m))) == Some(m)
  {
    assert NameChars(MemberName(m)) by {
      match m
      case OperationCount =>
      case OperationRate =>
      case ErrorCount =>
      case ErrorPercentage =>
      case LatencyP50 =>
      case LatencyP75 =>
      case LatencyP90 =>
      case LatencyP99 =>
    }
    UpperLowerName(MemberName(m));
    assert Lookup(MemberName(m)).Some?;
    MemberNameInjective(Lookup(MemberName(m)).value, m);
  }

  lemma MemberNameInjective(a: Metric, b: Metric)
    requires MemberName(a) == MemberName(b)
    ensures a == b
  {
    // Names of equal length differ within their first nine characters.
    assert MemberName(a)[..|MemberName(a)|] == MemberName(b)[..|MemberName(b)|];
    if |MemberName(a)| >= 11 {
      assert MemberName(a)[10] == MemberName(b)[10];
      assert MemberName(a)[|MemberName(a)| - 1] == MemberName(b)[|MemberName(b)| - 1];
      assert MemberName(a)[|MemberName(a)| - 2] == MemberName(b)[|MemberName(b)| - 2];
    }
  }

  /** Every name `names()` lists parses back to its own member. */
  lemma NamesRoundTrip()
    ensures forall i :: 0 <= i < |Names()| ==> FromStr(Names()[i]) == Some(Members[i])
  {
    forall i | 0 <= i < |Names()| ensures FromStr(Names()[i]) == Some(Members[i]) {
      FromStrName(Members[i]);
    }
  }

  /** The dashed spelling the configuration uses is accepted too. */
  lemma FromStrDashed()
    ensures FromStr("latency-p99") == Some(LatencyP99)
    ensures FromStr("p99") == None
  {
    assert ReplaceChar(Upper("latency-p99"), '-', '_') == "LATENCY_P99";
    assert ReplaceChar(Upper("p99"), '-', '_') == "P99";
  }

  /** `to_request`: the request parameters a metric adds. */
  function ToRequest(m: Metric): Dict {
    match ImplOf(m)
    case RawCount(name) => [("include-" + name, Int(1))]
    case Rate => [("include-ops-counts", Int(1))]
    case ErrorRatio => [("include-ops-counts", Int(1)), ("include-error-counts", Int(1))]
    case Latency(p) => [("percentile", Str(p))]
  }

  /** The attribute lists a metric's extraction reads. */
  function CountsRead(m: Metric): seq<string> {
    match ImplOf(m)
    case RawCount(name) => [name]
    case Rate => ["ops-counts"]
    case ErrorRatio => ["ops-counts", "error-counts"]
    case Latency(_) => []
  }

  /**
   * A metric's request includes every count list its extraction reads, and a latency
   * metric requests exactly the percentile it then looks for.
   */
  lemma RequestCoversExtraction(m: Metric)
    ensures forall c :: c in CountsRead(m) ==> Get(ToRequest(m), "include-" + c) == Some(Int(1))
    ensures ImplOf(m).Latency? ==> Get(ToRequest(m), "percentile") == Some(Str(ImplOf(m).percentile))
    ensures forall c :: c in CountsRead(m) ==> c == "ops-counts" || c == "error-counts"
  {
    match ImplOf(m)
    case ErrorRatio =>
      assert "include-ops-counts"[8] != "include-error-counts"[8];
      assert "include-" + "ops-counts" == "include-ops-counts";
      assert "include-" + "error-counts" == "include-error-counts";
    case RawCount(name) =>
      assert "include-" + name == "include-" + name;
    case Rate =>
      assert "include-" + "ops-counts" == "include-ops-counts";
    case Latency(_) =>
  }

  // ---------------------------------------------------------------------------------------
  // Extraction

  /** `attributes[name]` of a count list. */
  function CountList(attrs: Attributes, name: string): Option<seq<real>> {
    if name == "ops-counts" then attrs.opsCounts
    else if name == "error-counts" then attrs.errorCounts
    else None
  }

  /** `_RawCount.from_response`: the list, copied. */
  function RawCounts(attrs: Attributes, name: string): (r: Result<seq<real>, Error>)
    ensures CountList(attrs, name).Some? <==> r.Ok?
    ensures r.Ok? ==> r.value == CountList(attrs, name).value
  {
    match CountList(attrs, name)
    case None => Err(Crash("KeyError"))
    case Some(xs) => Ok(xs)
  }

  /** `Decimal(x) / y` with Decimal's exceptions for a zero divisor. */
  function Divide(x: real, y: real): Result<real, Error> {
    if y != 0.0 then Ok(x / y)
    else if x == 0.0 then Err(Crash("InvalidOperation"))
    else Err(Crash("DivisionByZero"))
  }

  /** `_OperationRate.from_response`: each operation count divided by the resolution. */
  function Rates(ops: seq<real>, resolution: int): (r: Result<seq<real>, Error>)
    ensures r.Ok? <==> |ops| == 0 || resolution != 0
    ensures r.Ok? ==> |r.value| == |ops|
    ensures r.Ok? ==> forall i :: 0 <= i < |ops| ==> r.value[i] == ops[i] / resolution as real
    decreases |ops|
  {
    if |ops| == 0 then Ok([])
    else
      match Divide(ops[0], resolution as real)
      case Err(e) => Err(e)
      case Ok(v) =>
        match Rates(ops[1..], resolution)
        case Err(e) => Err(e)
        case Ok(rest) => Ok([v] + rest)
  }

  /** `_ErrorPercentage.from_response`: error count over operation count, window by window. */
  function ErrorRatios(ops: seq<real>, errs: seq<real>): (r: Result<seq<real>, Error>)
    ensures r.Ok? <==> forall i :: 0 <= i < |ops| && i < |errs| ==> ops[i] != 0.0
    ensures r.Ok? ==>
      |r.value| == (if |ops| < |errs| then |ops| else |errs|) &&
      forall i :: 0 <= i < |r.value| ==> r.value[i] == errs[i] / ops[i]
    decreases |ops|
  {
    if |ops| == 0 || |errs| == 0 then Ok([])
    else
      match Divide(errs[0], ops[0])
      case Err(e) => Err(e)
      case Ok(v) =>
        match ErrorRatios(ops[1..], errs[1..])
        case Err(e) =>
          assert exists i :: 0 <= i < |ops| - 1 && i < |errs| - 1 && ops[1..][i] == 0.0;
          Err(e)
        case Ok(rest) =>
          assert forall i :: 1 <= i < |ops| && i < |errs| ==> ops[i] == ops[1..][i - 1];
          Ok([v] + rest)
  }

  /** The first latency entry of a percentile, if any. */
  function FirstLatency(entries: seq<LatencyEntry>, p: string): (r: Option<nat>)
    ensures r.Some? ==> r.value < |entries| && entries[r.value].percentile == p
    ensures r.Some? ==> forall j :: 0 <= j < r.value ==> entries[j].percentile != p
    ensures r.None? ==> forall j :: 0 <= j < |entries| ==> entries[j].percentile != p
    decreases |entries|
  {
    if |entries| == 0 then None
    else if entries[0].percentile == p then Some(0)
    else
      match FirstLatency(entries[1..], p)
      case None => None
      case Some(k) => Some(k + 1)
  }

  /** `_Latency.from_response`: the first matching percentile's latencies, or none. */
  function LatencyValues(attrs: Attributes, p: string): (r: Result<seq<real>, Error>)
    ensures r.Ok? <==> attrs.latencies.Some?
    ensures r.Ok? ==> match FirstLatency(attrs.latencies.value, p)
      case Some(k) => r.value == attrs.latencies.value[k].latencyMs
      case None => r.value == []
  {
    match attrs.latencies
    case None => Err(Crash("KeyError"))
    case Some(entries) =>
      match FirstLatency(entries, p)
      case Some(k) => Ok(entries[k].latencyMs)
      case None => Ok([])
  }

  /** What a metric's extraction yields: the resolution only reaches the rate metric. */
  function Extract(m: Metric, attrs: Attributes, resolution: int): Result<seq<real>, Error> {
    match ImplOf(m)
    case RawCount(name) => RawCounts(attrs, name)
    case Rate =>
      (match attrs.opsCounts
       case None => Err(Crash("KeyError"))
       case Some(ops) => Rates(ops, resolution))
    case ErrorRatio =>
      (match (attrs.opsCounts, attrs.errorCounts)
       case (Some(ops), Some(errs)) => ErrorRatios(ops, errs)
       case _ => Err(Crash("KeyError")))
    case Latency(p) => LatencyValues(attrs, p)
  }

  /** `zip(a, b)` */
  function Zip<A, B>(a: seq<A>, b: seq<B>): (r: seq<(A, B)>)
    ensures |r| == if |a| < |b| then |a| else |b|
    ensures forall i :: 0 <= i < |r| ==> r[i] == (a[i], b[i])
  {
    var n := if |a| < |b| then |a| else |b|;
    seq(n, i requires 0 <= i < n => (a[i], b[i]))
  }

  /**
   * `_Metric.from_response` as written: it hands the resolution to every extractor, and all
   * but the rate extractor take no such argument.
   */
  function FromResponseAsWritten(m: Metric, attrs: Attributes, resolution: int): Result<seq<(string, real)>, Error> {
    if ImplOf(m) != Rate then Err(Crash("TypeError"))
    else
      match Extract(m, attrs, resolution)
      case Err(e) => Err(e)
      case Ok(values) =>
        match attrs.timeWindows
        case None => Err(Crash("KeyError"))
        case Some(windows) => Ok(Zip(windows, values))
  }

  /** `_Metric.from_response` as intended: each window's youngest time with its value. */
  function FromResponse(m: Metric, attrs: Attributes, resolution: int): (r: Result<seq<(string, real)>, Error>)
    ensures r.Ok? <==> Extract(m, attrs, resolution).Ok? && attrs.timeWindows.Some?
    ensures r.Ok? ==> r.value == Zip(attrs.timeWindows.value, Extract(m, attrs, resolution).value)
  {
    match Extract(m, attrs, resolution)
    case Err(e) => Err(e)
    case Ok(values) =>
      match attrs.timeWindows
      case None => Err(Crash("KeyError"))
      case Some(windows) => Ok(Zip(windows, values))
  }

  /**
   * As written, every metric but the operation rate fails with a TypeError whatever the
   * response; for the operation rate both readings agree.
   */
  lemma FromResponseAsWrittenRejects(m: Metric, attrs: Attributes, resolution: int)
    ensures m != OperationRate ==> FromResponseAsWritten(m, attrs, resolution) == Err(Crash("TypeError"))
    ensures m == OperationRate ==> FromResponseAsWritten(m, attrs, resolution) == FromResponse(m, attrs, resolution)
  {
  }

  /** Which `from_response` a read goes through: the one written, or the one intended. */
  datatype Reader = AsWritten | Intended

  function ReadResponse(reader: Reader, m: Metric, attrs: Attributes, resolution: int): Result<seq<(string, real)>, Error> {
    match reader
    case AsWritten => FromResponseAsWritten(m, attrs, resolution)
    case Intended => FromResponse(m, attrs, resolution)
  }

  /** A complete answer for the 50th percentile: rejected as written, read as intended. */
  lemma FromResponseLatencyExample()
    ensures var attrs := Attributes(Some([LatencyEntry("50", [12.0, 15.0])]), None, None,
                                    Some(["t1", "t2"]), Some(2));
      FromResponseAsWritten(LatencyP50, attrs, 600) == Err(Crash("TypeError")) &&
      FromResponse(LatencyP50, attrs, 600) == Ok([("t1", 12.0), ("t2", 15.0)])
  {
    var attrs := Attributes(Some([LatencyEntry("50", [12.0, 15.0])]), None, None, Some(["t1", "t2"]), Some(2));
    assert FirstLatency([LatencyEntry("50", [12.0, 15.0])], "50") == Some(0);
    assert Zip(["t1", "t2"], [12.0, 15.0]) == [("t1", 12.0), ("t2", 15.0)];
  }

  // ---------------------------------------------------------------------------------------
  // Pages

  /**
   * `_paginate_timerange`: without a page or a page size the range is unchanged and there
   * is no pagination; otherwise the page's window of `per_page` resolution steps.
   */
  function PaginateTimerange(range: TimeRange, resolution: int, page: int, perPage: int)
    : Result<(TimeRange, Option<Pagination>), Error>
  {
    if page == 0 || perPage == 0 then Ok((range, None))
    else if resolution == 0 then Err(Crash("ZeroDivisionError"))
    else
      var start := range.start + (page - 1) * perPage * resolution;
      var end := start + resolution * perPage;
      var totalCount := (range.end - range.start) as real / resolution as real;
      var currentCount := page * perPage;
      Ok((TimeRange(start, end),
          Some(Pagination(if page > 1 then Some(page) else None, perPage,
                          if (currentCount as real) < totalCount then Some(page + 1) else None))))
  }

  /**
   * With a page and a page size: the window starts `(page - 1) * per_page` steps after the
   * range's start and lasts `per_page` steps, so consecutive pages tile the range; the page
   * number is recorded only beyond the first page; and (for a positive resolution) there is a
   * next page exactly when the pages so far end before the range does.
   */
  lemma PaginateTimerangeMeaning(range: TimeRange, resolution: int, page: int, perPage: int)
    requires page != 0 && perPage != 0 && resolution > 0
    ensures var r := PaginateTimerange(range, resolution, page, perPage);
      r.Ok? && r.value.1.Some? &&
      r.value.0.start == range.start + (page - 1) * perPage * resolution &&
      r.value.0.end - r.value.0.start == perPage * resolution &&
      r.value.1.value.perPage == perPage &&
      (r.value.1.value.page.Some? <==> page > 1) &&
      (r.value.1.value.nextNum.Some? <==> range.start + page * perPage * resolution < range.end) &&
      (r.value.1.value.nextNum.Some? ==> r.value.1.value.nextNum.value == page + 1)
    ensures page + 1 != 0 ==>
      PaginateTimerange(range, resolution, page + 1, perPage).value.0.start ==
      PaginateTimerange(range, resolution, page, perPage).value.0.end
  {
    var delta := range.end - range.start;
    var current := page * perPage;
    var res := resolution as real;
    assert page * perPage * resolution == current * resolution;
    assert (current as real) < delta as real / res <==> (current as real) * res < delta as real by {
      DivideCompare(current as real, delta as real, res);
    }
    assert (current * resolution) as real == (current as real) * res;
    assert (page + 1 - 1) * perPage * resolution == (page - 1) * perPage * resolution + resolution * perPage;
  }

  lemma DivideCompare(a: real, b: real, c: real)
    requires c > 0.0
    ensures a < b / c <==> a * c < b
  {
    assert (b / c) * c == b;
    if a < b / c {
      assert a * c < (b / c) * c;
    } else {
      assert a * c >= (b / c) * c;
    }
  }

  /** With no page or no page size the range passes unchanged and nothing is paginated. */
  lemma PaginateTimerangeUnpaged(range: TimeRange, resolution: int, page: int, perPage: int)
    requires page == 0 || perPage == 0
    ensures PaginateTimerange(range, resolution, page, perPage) == Ok((range, None))
  {
  }

  // ---------------------------------------------------------------------------------------
  // Configuration

  const StreamIdMessage: string := "LightStep stream ID is required, but was not provided or is empty."

  function MetricMessage(metric: string): string {
    "Metric name for the LightStep source is not correct. Current value is " + metric +
    " whereas the valid choices are: " + Join(Names(), ", ")
  }

  /**
   * `Lightstep.validate_config`: a truthy stream id, and a metric whose text parses. Values
   * whose text is not modelled (floats, lists, dicts) never name a metric.
   */
  function ValidateConfig(config: Dict): Result<(), Error> {
    var metric := StrOf(GetOr(config, "metric", Null));
    if !Truthy(GetOr(config, "stream_id", Null)) then Err(SourceError(StreamIdMessage))
    else if metric.None? then Err(SourceError(MetricMessage("")))
    else if FromStr(metric.value).None? then Err(SourceError(MetricMessage(metric.value)))
    else Ok(())
  }

  /** No text without letters names a metric. */
  lemma NoLettersNoMetric(s: string)
    requires |s| > 0 && !IsLetter(s[0])
    ensures FromStr(s) == None
  {
    var key := ReplaceChar(Upper(s), '-', '_');
    assert !IsLetter(key[0]);
    forall m: Metric ensures MemberName(m) != key {
      assert IsLetter(MemberName(m)[0]);
    }
  }

  /**
   * A configuration passes exactly when its stream id is truthy and its metric is a string
   * naming a member; an absent metric reads as "None" and is refused, as are numbers and
   * booleans. A missing stream id is reported first.
   */
  lemma ValidateConfigMeaning(config: Dict)
    ensures ValidateConfig(config).Ok? <==>
      Truthy(GetOr(config, "stream_id", Null)) &&
      GetOr(config, "metric", Null).Str? && FromStr(GetOr(config, "metric", Null).s).Some?
    ensures !Truthy(GetOr(config, "stream_id", Null)) ==> ValidateConfig(config) == Err(SourceError(StreamIdMessage))
    ensures ValidateConfig(config).Err? ==> ValidateConfig(config).error.SourceError?
  {
    var v := GetOr(config, "metric", Null);
    match v
    case Null => KeywordsNoMetric();
    case Bool(b) => KeywordsNoMetric();
    case Int(i) =>
      if i < 0 {
        assert IntToString(i)[0] == '-';
      } else {
        assert IsDigit(NatToString(i)[0]);
      }
      NoLettersNoMetric(IntToString(i));
    case _ =>
  }

  /** The text Python gives None and the booleans names no metric. */
  lemma KeywordsNoMetric()
    ensures FromStr("None") == None && FromStr("True") == None && FromStr("False") == None
  {
    assert ReplaceChar(Upper("None"), '-', '_') == "NONE";
    assert ReplaceChar(Upper("True"), '-', '_') == "TRUE";
    assert ReplaceChar(Upper("False"), '-', '_') == "FALSE";
  }

  // ---------------------------------------------------------------------------------------
  // Reading values

  /** What the Lightstep API answered: the status, the "errors" entry and the attributes. */
  datatype Response = Response(status: int, errors: Value, attributes: Option<Attributes>)

  /** The request parameters and what came of the answer. */
  datatype Fetch = Fetch(params: Dict, outcome: Result<(seq<Reading>, Option<Pagination>), Error>)

  const ApiKeyMessage: string :=
    "Given Lightstep API key is probably wrong. " +
    "Please verify if the LIGHTSTEP_API_KEY environment variable contains a valid key."
  const ApiErrorMessage: string := "Something went wrong with a request to the Lightstep API."

  /** The query parameters: the window's instants, the resolution in ms, the metric's own. */
  function RequestParams(metric: Metric, window: TimeRange, res: int, iso: int -> string): Dict {
    var base: Dict := [("oldest-time", Str(iso(window.start))), ("youngest-time", Str(iso(window.end))),
                       ("resolution-ms", Str(IntToString(res * 1000)))];
    Update(base, ToRequest(metric))
  }

  /** Every key a metric adds to a request starts with 'i' or 'p', and none is repeated. */
  lemma RequestKeys(metric: Metric)
    ensures DistinctKeys(ToRequest(metric))
    ensures forall k :: k in Keys(ToRequest(metric)) ==> |k| > 0 && (k[0] == 'i' || k[0] == 'p')
  {
    match ImplOf(metric)
    case RawCount(name) =>
      assert ("include-" + name)[0] == 'i';
    case ErrorRatio =>
      assert "include-ops-counts"[8] != "include-error-counts"[8];
    case _ =>
  }

  /** A key no metric asks for reads from the base parameters. */
  lemma RequestKeepsBase(metric: Metric, base: Dict, k: string)
    requires |k| > 0 && k[0] != 'i' && k[0] != 'p'
    ensures Get(Update(base, ToRequest(metric)), k) == Get(base, k)
  {
    RequestKeys(metric);
    GetUpdate(base, ToRequest(metric), k);
  }

  /** The parameters carry the window's instants and the resolution in milliseconds. */
  lemma RequestParamsWindow(metric: Metric, window: TimeRange, res: int, iso: int -> string)
    ensures Get(RequestParams(metric, window, res, iso), "oldest-time") == Some(Str(iso(window.start)))
    ensures Get(RequestParams(metric, window, res, iso), "youngest-time") == Some(Str(iso(window.end)))
    ensures Get(RequestParams(metric, window, res, iso), "resolution-ms") == Some(Str(IntToString(res * 1000)))
  {
    var base: Dict := [("oldest-time", Str(iso(window.start))), ("youngest-time", Str(iso(window.end))),
                       ("resolution-ms", Str(IntToString(res * 1000)))];
    assert "oldest-time"[0] == 'o' && "youngest-time"[0] == 'y' && "resolution-ms"[0] == 'r';
    assert Get(base[2..], "resolution-ms") == Some(Str(IntToString(res * 1000)));
    assert Get(base[1..], "youngest-time") == Some(Str(iso(window.end)));
    RequestKeepsBase(metric, base, "oldest-time");
    RequestKeepsBase(metric, base, "youngest-time");
    RequestKeepsBase(metric, base, "resolution-ms");
  }

  /** The parameters carry every parameter the metric asks for. */
  lemma RequestParamsMetric(metric: Metric, window: TimeRange, res: int, iso: int -> string, k: string)
    requires k in Keys(ToRequest(metric))
    ensures Get(RequestParams(metric, window, res, iso), k) == Get(ToRequest(metric), k)
  {
    var base: Dict := [("oldest-time", Str(iso(window.start))), ("youngest-time", Str(iso(window.end))),
                       ("resolution-ms", Str(IntToString(res * 1000)))];
    RequestKeys(metric);
    GetUpdate(base, ToRequest(metric), k);
  }

  /** The readings of an answer: each window's parsed youngest time with its value. */
  function Readings(pairs: seq<(string, real)>, parse: string -> int): (r: seq<Reading>)
    ensures |r| == |pairs|
    ensures forall i :: 0 <= i < |pairs| ==> r[i] == (parse(pairs[i].0), pairs[i].1)
  {
    seq(|pairs|, i requires 0 <= i < |pairs| => (parse(pairs[i].0), pairs[i].1))
  }

  /**
   * `Lightstep.get_indicator_values`: resolution defaults to LIGHTSTEP_RESOLUTION_SECONDS
   * (zero stands for None); the page's window is requested; a 401 answer and a truthy
   * "errors" entry are source errors. `iso` formats an instant, `parse` reads one back.
   * The source's own reading is `reader == AsWritten`; `Intended` reads as the design meant.
   */
  function GetIndicatorValues(reader: Reader, metric: Metric, range: TimeRange, resolution: int, page: int, perPage: int,
                              iso: int -> string, parse: string -> int, response: Response): (f: Fetch)
    ensures response.status == 401 && f.outcome.Err? ==> f.outcome.error.SourceError?
  {
    var res := if resolution != 0 then resolution else DefaultResolution;
    match PaginateTimerange(range, res, page, perPage)
    case Err(e) => Fetch([], Err(e))
    case Ok((window, pagination)) =>
      var params := RequestParams(metric, window, res, iso);
      if response.status == 401 then Fetch(params, Err(SourceError(ApiKeyMessage)))
      else if Truthy(response.errors) then Fetch(params, Err(SourceError(ApiErrorMessage)))
      else
        match response.attributes
        case None => Fetch(params, Err(Crash("KeyError")))
        case Some(attrs) =>
          match ReadResponse(reader, metric, attrs, res)
          case Err(e) => Fetch(params, Err(e))
          case Ok(pairs) => Fetch(params, Ok((Readings(pairs, parse), pagination)))
  }

  /**
   * The request is for the page's window at the effective resolution; a 401 or an "errors"
   * entry is a source error; otherwise the readings are the metric's values paired with the
   * windows' parsed youngest times, with the page's pagination.
   */
  lemma GetIndicatorValuesMeaning(reader: Reader, metric: Metric, range: TimeRange, resolution: int, page: int, perPage: int,
                                  iso: int -> string, parse: string -> int, response: Response)
    ensures var f := GetIndicatorValues(reader, metric, range, resolution, page, perPage, iso, parse, response);
      var res := if resolution != 0 then resolution else DefaultResolution;
      var paged := PaginateTimerange(range, res, page, perPage);
      && (paged.Ok? ==> f.params == RequestParams(metric, paged.value.0, res, iso))
      && (paged.Ok? && response.status == 401 ==> f.outcome == Err(SourceError(ApiKeyMessage)))
      && (paged.Ok? && response.status != 401 && Truthy(response.errors) ==>
            f.outcome == Err(SourceError(ApiErrorMessage)))
      && (f.outcome.Ok? <==>
            paged.Ok? && response.status != 401 && !Truthy(response.errors) && response.attributes.Some? &&
            ReadResponse(reader, metric, response.attributes.value, res).Ok?)
      && (f.outcome.Ok? ==>
            f.outcome.value.0 == Readings(ReadResponse(reader, metric, response.attributes.value, res).value, parse) &&
            f.outcome.value.1 == paged.value.1)
  {
  }

  /** The resolution is never zero, so the page arithmetic never divides by zero. */
  lemma GetIndicatorValuesPages(reader: Reader, metric: Metric, range: TimeRange, resolution: int, page: int, perPage: int,
                                iso: int -> string, parse: string -> int, response: Response)
    ensures GetIndicatorValues(reader, metric, range, resolution, page, perPage, iso, parse, response).outcome
      != Err(Crash("ZeroDivisionError"))
  {
    var res := if resolution != 0 then resolution else DefaultResolution;
    assert PaginateTimerange(range, res, page, perPage).Ok?;
    var f := GetIndicatorValues(reader, metric, range, resolution, page, perPage, iso, parse, response);
    match response.attributes
    case None =>
      assert "KeyError"[0] != "ZeroDivisionError"[0];
      assert f.outcome.Err? ==> !f.outcome.error.Crash? || f.outcome.error.exception == "KeyError";
    case Some(attrs) =>
      ExtractNeverZeroDivision(reader, metric, attrs, res);
      assert f.outcome.Err? && f.outcome.error.Crash? ==> Err(f.outcome.error) == ReadResponse(reader, metric, attrs, res);
  }

  /**
   * As written, a readable answer for any metric but the operation rate ends in a TypeError;
   * for the operation rate the written read is the intended one.
   */
  lemma GetIndicatorValuesAsWritten(metric: Metric, range: TimeRange, resolution: int, page: int, perPage: int,
                                    iso: int -> string, parse: string -> int, response: Response)
    ensures metric != OperationRate && response.status != 401 && !Truthy(response.errors) &&
            response.attributes.Some? ==>
      GetIndicatorValues(AsWritten, metric, range, resolution, page, perPage, iso, parse, response).outcome ==
      Err(Crash("TypeError"))
    ensures metric == OperationRate ==>
      GetIndicatorValues(AsWritten, metric, range, resolution, page, perPage, iso, parse, response) ==
      GetIndicatorValues(Intended, metric, range, resolution, page, perPage, iso, parse, response)
  {
    var res := if resolution != 0 then resolution else DefaultResolution;
    assert PaginateTimerange(range, res, page, perPage).Ok?;
    if response.attributes.Some? {
      FromResponseAsWrittenRejects(metric, response.attributes.value, res);
    }
  }

  /** The values read over the whole range, unpaged, at one aggregate's resolution. */
  function AggregateRead(reader: Reader, metric: Metric, range: TimeRange, resolution: int, iso: int -> string,
                         parse: string -> int, answer: int -> Response): Result<seq<Reading>, Error>
  {
    var f := GetIndicatorValues(reader, metric, range, resolution, 0, 0, iso, parse, answer(resolution));
    if f.outcome.Ok? then Ok(f.outcome.value.0) else Err(f.outcome.error)
  }

  /** One read per aggregate resolution. */
  function AggregateReader(reader: Reader, metric: Metric, range: TimeRange, iso: int -> string, parse: string -> int,
                           answer: int -> Response): int -> Result<seq<Reading>, Error>
  {
    resolution => AggregateRead(reader, metric, range, resolution, iso, parse, answer)
  }

  /** Each resolution, in order, paired with what `read` gives for it; the first failure wins. */
  function ReadEach(read: int -> Result<seq<Reading>, Error>, resolutions: seq<int>): Result<seq<(int, seq<Reading>)>, Error>
    decreases |resolutions|
  {
    if |resolutions| == 0 then Ok([])
    else
      match ReadEach(read, resolutions[..|resolutions| - 1])
      case Err(e) => Err(e)
      case Ok(init) =>
        var res := resolutions[|resolutions| - 1];
        match read(res)
        case Err(e) => Err(e)
        case Ok(values) => Ok(init + [(res, values)])
  }

  /**
   * `Lightstep.get_indicator_value_aggregates`: for each aggregate, in order, the whole range
   * read unpaged with the aggregate's value as the resolution; the first read that
   * fails raises. `answer` is the API's answer to the request at each resolution.
   */
  function ValueAggregates(reader: Reader, metric: Metric, range: TimeRange, resolutions: seq<int>, iso: int -> string,
                           parse: string -> int, answer: int -> Response): Result<seq<(int, seq<Reading>)>, Error>
  {
    ReadEach(AggregateReader(reader, metric, range, iso, parse, answer), resolutions)
  }

  lemma {:induction false} ReadEachSucceeds(read: int -> Result<seq<Reading>, Error>, resolutions: seq<int>)
    ensures ReadEach(read, resolutions).Ok? <==> forall i :: 0 <= i < |resolutions| ==> read(resolutions[i]).Ok?
    decreases |resolutions|
  {
    if |resolutions| > 0 {
      var init := resolutions[..|resolutions| - 1];
      ReadEachSucceeds(read, init);
      assert forall i :: 0 <= i < |init| ==> init[i] == resolutions[i];
    }
  }

  lemma {:induction false} ReadEachMeaning(read: int -> Result<seq<Reading>, Error>, resolutions: seq<int>)
    requires ReadEach(read, resolutions).Ok?
    ensures var r := ReadEach(read, resolutions).value;
      |r| == |resolutions| &&
      forall i :: 0 <= i < |resolutions| ==> read(resolutions[i]).Ok? && r[i] == (resolutions[i], read(resolutions[i]).value)
    decreases |resolutions|
  {
    if |resolutions| > 0 {
      var init := resolutions[..|resolutions| - 1];
      ReadEachMeaning(read, init);
      assert forall i :: 0 <= i < |init| ==> init[i] == resolutions[i];
    }
  }

  /** The aggregates are read exactly when every resolution's read succeeds. */
  lemma ValueAggregatesSucceed(reader: Reader, metric: Metric, range: TimeRange, resolutions: seq<int>, iso: int -> string,
                               parse: string -> int, answer: int -> Response)
    ensures ValueAggregates(reader, metric, range, resolutions, iso, parse, answer).Ok? <==>
      forall i :: 0 <= i < |resolutions| ==> AggregateRead(reader, metric, range, resolutions[i], iso, parse, answer).Ok?
  {
    ReadEachSucceeds(AggregateReader(reader, metric, range, iso, parse, answer), resolutions);
  }

  /**
   * Read aggregates pair each resolution, in order, with the values read over the whole
   * range at that resolution.
   */
  lemma ValueAggregatesMeaning(reader: Reader, metric: Metric, range: TimeRange, resolutions: seq<int>, iso: int -> string,
                               parse: string -> int, answer: int -> Response)
    requires ValueAggregates(reader, metric, range, resolutions, iso, parse, answer).Ok?
    ensures var r := ValueAggregates(reader, metric, range, resolutions, iso, parse, answer).value;
      |r| == |resolutions| &&
      forall i :: 0 <= i < |resolutions| ==>
        AggregateRead(reader, metric, range, resolutions[i], iso, parse, answer).Ok? &&
        r[i] == (resolutions[i], AggregateRead(reader, metric, range, resolutions[i], iso, parse, answer).value)
  {
    ReadEachMeaning(AggregateReader(reader, metric, range, iso, parse, answer), resolutions);
  }

  /**
   * Reading a response raises Decimal's DivisionByZero or InvalidOperation on a zero
   * divisor, never a float ZeroDivisionError, whichever reader is used.
   */
  lemma ExtractNeverZeroDivision(reader: Reader, m: Metric, attrs: Attributes, res: int)
    ensures ReadResponse(reader, m, attrs, res) != Err(Crash("ZeroDivisionError"))
  {
    assert "ZeroDivisionError"[0] != "TypeError"[0];
    assert "ZeroDivisionError" != "KeyError";
    assert "ZeroDivisionError"[0] != "InvalidOperation"[0];
    assert "ZeroDivisionError"[0] != "DivisionByZero"[0];
    if Extract(m, attrs, res).Err? {
      ExtractErrors(m, attrs, res);
    }
  }

  /** The exceptions an extraction can raise. */
  lemma ExtractErrors(m: Metric, attrs: Attributes, res: int)
    ensures Extract(m, attrs, res).Err? ==>
      Extract(m, attrs, res).error in {Crash("KeyError"), Crash("InvalidOperation"), Crash("DivisionByZero")}
  {
    match ImplOf(m)
    case Rate =>
      if attrs.opsCounts.Some? {
        RatesErrors(attrs.opsCounts.value, res);
      }
    case ErrorRatio =>
      if attrs.opsCounts.Some? && attrs.errorCounts.Some? {
        ErrorRatiosErrors(attrs.opsCounts.value, attrs.errorCounts.value);
      }
    case _ =>
  }

  lemma {:induction false} RatesErrors(ops: seq<real>, res: int)
    ensures Rates(ops, res).Err? ==> Rates(ops, res).error in {Crash("InvalidOperation"), Crash("DivisionByZero")}
    decreases |ops|
  {
    if |ops| > 0 {
      RatesErrors(ops[1..], res);
    }
  }

  lemma {:induction false} ErrorRatiosErrors(ops: seq<real>, errs: seq<real>)
    ensures ErrorRatios(ops, errs).Err? ==>
      ErrorRatios(ops, errs).error in {Crash("InvalidOperation"), Crash("DivisionByZero")}
    decreases |ops|
  {
    if |ops| > 0 && |errs| > 0 {
      ErrorRatiosErrors(ops[1..], errs[1..]);
    }
  }
}
