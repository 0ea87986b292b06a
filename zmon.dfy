/**
 * The ZMON SLI source: validation of its configuration, and the indicator value store it
 * writes KairosDB results into. The store is the `indicatorvalue` table, keyed by
 * (timestamp, indicator id); instants are whole seconds since the epoch.
 */
module Zmon {
  import opened Wrappers
  import opened PyStr
  import opened OrderedDict
  import opened PyValue
  import opened SourceBase
  import opened Kairos

  /** MAX_QUERY_TIME_SLICE: the longest incremental fetch, in minutes. */
  const MaxQueryTimeSlice: int := 1440

  // ---------------------------------------------------------------------------------------
  // Configuration

  const RequiredKeys: seq<string> := ["aggregation", "check_id", "keys"]

  const KeysEmptyMessage: string := "SLI 'source' *keys* must have a value"
  const AggregationEmptyMessage: string := "SLI 'source' *aggregation* must have a value"
  const TypeInvalidMessage: string :=
    "SLI 'source' aggregation type is invalid. Valid values are: " +
    "('average', 'weighted', 'sum', 'min', 'max', 'minimum', 'maximum')"
  const WeightKeysMessage: string := "SLI 'source' aggregation type *weighted* must have *weight_keys*"

  /** `set(required) - set(config.keys())`, in a fixed order. */
  function MissingKeys(config: Dict): (r: seq<string>)
    ensures forall k :: k in r <==> k in RequiredKeys && k !in Keys(config)
  {
    (if "aggregation" in Keys(config) then [] else ["aggregation"]) +
    (if "check_id" in Keys(config) then [] else ["check_id"]) +
    (if "keys" in Keys(config) then [] else ["keys"])
  }

  function MissingKeysMessage(missing: seq<string>): string {
    "SLI 'source' has missing keys: " + Join(missing, ", ") + "!"
  }

  predicate HasRequiredKeys(config: Dict) {
    forall k :: k in RequiredKeys ==> k in Keys(config)
  }

  predicate KeysGiven(config: Dict) {
    Get(config, "keys").Some? && Truthy(Get(config, "keys").value)
  }

  predicate AggregationGiven(config: Dict) {
    Get(config, "aggregation").Some? && Truthy(Get(config, "aggregation").value)
  }

  /** `aggregation.get("type")` when it is a string. */
  function AggregationType(config: Dict): Option<string> {
    var aggregation := Get(config, "aggregation");
    if aggregation.Some? && aggregation.value.Object? then
      var aggType := Get(aggregation.value.entries, "type");
      if aggType.Some? && aggType.value.Str? then Some(aggType.value.s) else None
    else None
  }

  predicate TypeValid(config: Dict) {
    AggregationType(config).Some? && AggregationType(config).value in AggregationTypes
  }

  /** `aggregation.get("weight_keys")` is truthy. */
  predicate WeightKeysGiven(config: Dict) {
    var aggregation := Get(config, "aggregation");
    aggregation.Some? && aggregation.value.Object? &&
    Truthy(GetOr(aggregation.value.entries, "weight_keys", Null))
  }

  /** `ZMON.validate_config`: accepts exactly the configurations that pass every check. */
  function ValidateConfig(config: Dict): (r: Result<(), Error>)
    ensures r.Ok? <==>
      HasRequiredKeys(config) && KeysGiven(config) && AggregationGiven(config) &&
      TypeValid(config) && (AggregationType(config).value == "weighted" ==> WeightKeysGiven(config))
  {
    var missing := MissingKeys(config);
    if |missing| > 0 then
      assert missing[0] in missing;
      Err(SourceError(MissingKeysMessage(missing)))
    else if !Truthy(Get(config, "keys").value) then Err(SourceError(KeysEmptyMessage))
    else
      var aggregation := Get(config, "aggregation").value;
      if !Truthy(aggregation) then Err(SourceError(AggregationEmptyMessage))
      // `.get` on something that is not a dict
      else if !aggregation.Object? then Err(Crash("AttributeError"))
      else
        var aggType := Get(aggregation.entries, "type");
        if aggType.None? || !Truthy(aggType.value) || !aggType.value.Str?
           || aggType.value.s !in AggregationTypes then
          Err(SourceError(TypeInvalidMessage))
        else if aggType.value.s == "weighted" && !Truthy(GetOr(aggregation.entries, "weight_keys", Null)) then
          Err(SourceError(WeightKeysMessage))
        else Ok(())
  }

  /**
   * The checks run in order and the first failing one names the error: missing keys, empty
   * keys, empty aggregation, an invalid type, then weighted without weight keys.
   */
  lemma ValidateConfigFirstFailure(config: Dict)
    ensures !HasRequiredKeys(config) ==>
      ValidateConfig(config) == Err(SourceError(MissingKeysMessage(MissingKeys(config))))
    ensures HasRequiredKeys(config) && !KeysGiven(config) ==>
      ValidateConfig(config) == Err(SourceError(KeysEmptyMessage))
    ensures HasRequiredKeys(config) && KeysGiven(config) && !AggregationGiven(config) ==>
      ValidateConfig(config) == Err(SourceError(AggregationEmptyMessage))
    ensures (HasRequiredKeys(config) && KeysGiven(config) && AggregationGiven(config) &&
             Get(config, "aggregation").value.Object? && !TypeValid(config)) ==>
      ValidateConfig(config) == Err(SourceError(TypeInvalidMessage))
    ensures (HasRequiredKeys(config) && KeysGiven(config) && AggregationGiven(config) &&
             TypeValid(config) && AggregationType(config).value == "weighted" && !WeightKeysGiven(config)) ==>
      ValidateConfig(config) == Err(SourceError(WeightKeysMessage))
  {
    if !HasRequiredKeys(config) {
      var k :| k in RequiredKeys && k !in Keys(config);
      assert k in MissingKeys(config);
    }
  }

  // ---------------------------------------------------------------------------------------
  // Reading the store

  type Store = map<(int, int), real>

  /** The values of one indicator with start <= timestamp < end, in timestamp order. */
  function Window(values: Store, id: int, start: int, end: int): seq<Reading>
    decreases end - start
  {
    if end <= start then []
    else
      Window(values, id, start, end - 1) +
      (if (end - 1, id) in values then [(end - 1, values[(end - 1, id)])] else [])
  }

  /**
   * A read window holds exactly the indicator's stored values in [start, end), each once and
   * in ascending timestamp order.
   */
  lemma {:induction false} WindowMeaning(values: Store, id: int, start: int, end: int)
    ensures forall i :: 0 <= i < |Window(values, id, start, end)| ==>
      var e := Window(values, id, start, end)[i];
      start <= e.0 < end && (e.0, id) in values && values[(e.0, id)] == e.1
    ensures forall i, j :: 0 <= i < j < |Window(values, id, start, end)| ==>
      Window(values, id, start, end)[i].0 < Window(values, id, start, end)[j].0
    ensures forall t :: start <= t < end && (t, id) in values ==>
      (t, values[(t, id)]) in Window(values, id, start, end)
    decreases end - start
  {
    if end > start {
      var init := Window(values, id, start, end - 1);
      WindowMeaning(values, id, start, end - 1);
      var r := Window(values, id, start, end);
      if (end - 1, id) in values {
        assert r == init + [(end - 1, values[(end - 1, id)])];
        assert forall i :: 0 <= i < |init| ==> r[i] == init[i];
        forall t | start <= t < end - 1 && (t, id) in values ensures (t, values[(t, id)]) in r {
          var i :| 0 <= i < |init| && init[i] == (t, values[(t, id)]);
          assert r[i] == init[i];
        }
      } else {
        assert r == init;
      }
    }
  }

  /** A page of an ordered query result. */
  datatype Page = Page(items: seq<Reading>, page: int, perPage: int, total: int, nextNum: Option<int>)

  /**
   * `query.paginate(page=page, per_page=per_page, error_out=False)` of Flask-SQLAlchemy:
   * a page below 1 reads as 1 and a negative page size as 20.
   */
  function Paginate(all: seq<Reading>, page: int, perPage: int): (r: Page)
    requires page != 0 && perPage != 0
    ensures r.page >= 1 && r.perPage >= 1 && r.total == |all|
    ensures r.page == (if page < 1 then 1 else page)
    ensures r.perPage == (if perPage < 0 then 20 else perPage)
    ensures r.items == Slice(all, (r.page - 1) * r.perPage, r.perPage)
    ensures r.nextNum.Some? <==> r.page * r.perPage < |all|
    ensures r.nextNum.Some? ==> r.nextNum.value == r.page + 1
  {
    var p := if page < 1 then 1 else page;
    var pp := if perPage < 0 then 20 else perPage;
    var pages := (|all| + pp - 1) / pp;
    PagesMeaning(p, pp, |all|);
    MultiplyMonotone(0, p - 1, pp);
    Page(Slice(all, (p - 1) * pp, pp), p, pp, |all|, if p < pages then Some(p + 1) else None)
  }

  /** `LIMIT size OFFSET offset` */
  function Slice(all: seq<Reading>, offset: nat, size: nat): (r: seq<Reading>)
    ensures |r| <= size
    ensures offset < |all| ==> offset + |r| <= |all| && r == all[offset..offset + |r|]
    ensures offset + size <= |all| ==> |r| == size
    ensures offset < |all| < offset + size ==> |r| == |all| - offset
    ensures offset >= |all| ==> r == []
  {
    if offset >= |all| then []
    else all[offset..if offset + size <= |all| then offset + size else |all|]
  }

  /** Flask-SQLAlchemy's `page < pages` with `pages = ceil(total / per_page)`. */
  lemma PagesMeaning(p: int, pp: int, total: nat)
    requires p >= 1 && pp >= 1
    ensures p < (total + pp - 1) / pp <==> p * pp < total
  {
    var pages := (total + pp - 1) / pp;
    var rem := (total + pp - 1) % pp;
    assert total + pp - 1 == pages * pp + rem;
    if p < pages {
      assert (p + 1) * pp <= pages * pp by {
        MultiplyMonotone(p + 1, pages, pp);
      }
    } else {
      assert pages * pp <= p * pp by {
        MultiplyMonotone(pages, p, pp);
      }
    }
  }

  lemma MultiplyMonotone(a: int, b: int, c: int)
    requires a <= b && c >= 0
    ensures a * c <= b * c
  {
  }

  // ---------------------------------------------------------------------------------------
  // The fetch window of the incremental update

  /** The newest instant in [lo, hi) at which the indicator has a value. */
  function Newest(values: Store, id: int, lo: int, hi: int): (r: Option<int>)
    ensures r.Some? ==> lo <= r.value < hi && (r.value, id) in values
    ensures r.Some? ==> forall t :: r.value < t < hi ==> (t, id) !in values
    ensures r.None? ==> forall t :: lo <= t < hi ==> (t, id) !in values
    decreases hi - lo
  {
    if hi <= lo then None
    else if (hi - 1, id) in values then Some(hi - 1)
    else Newest(values, id, lo, hi - 1)
  }

  /**
   * `_get_start_relative_for_update` as written: `(now - newest).seconds // 60 + 5`, where a
   * timedelta's `.seconds` leaves out its whole days.
   */
  function StartRelativeAsWritten(values: Store, id: int, now: int): (r: int)
    ensures 5 <= r <= 1444
  {
    match Newest(values, id, now - MaxQueryTimeSlice * 60, now)
    case None => MaxQueryTimeSlice
    case Some(newest) => ((now - newest) % 86400) / 60 + 5
  }

  /**
   * The fetch start in minutes before now: the whole slice when nothing was stored in it,
   * otherwise the minutes since the newest stored value plus five minutes of overlap.
   */
  function StartRelative(values: Store, id: int, now: int): (r: int)
    ensures 5 <= r <= MaxQueryTimeSlice + 5
  {
    match Newest(values, id, now - MaxQueryTimeSlice * 60, now)
    case None => MaxQueryTimeSlice
    case Some(newest) => (now - newest) / 60 + 5
  }

  /**
   * The fetch window reaches back past the newest stored value (five minutes of overlap), or
   * covers the whole slice when the slice holds nothing.
   */
  lemma StartRelativeCovers(values: Store, id: int, now: int)
    ensures match Newest(values, id, now - MaxQueryTimeSlice * 60, now)
      case None => StartRelative(values, id, now) == MaxQueryTimeSlice
      case Some(newest) =>
        newest - 300 <= now - StartRelative(values, id, now) * 60 < newest - 240
  {
    match Newest(values, id, now - MaxQueryTimeSlice * 60, now)
    case None =>
    case Some(newest) =>
      var d := now - newest;
      assert d == (d / 60) * 60 + d % 60;
  }

  /**
   * As written, a value stored exactly one slice ago gives a fetch of five minutes: the
   * window no longer reaches the newest stored value.
   */
  lemma StartRelativeAsWrittenMissesNewest()
    ensures var values: Store := map[(0, 7) := 1.0];
      Newest(values, 7, 86400 - MaxQueryTimeSlice * 60, 86400) == Some(0) &&
      StartRelativeAsWritten(values, 7, 86400) == 5 &&
      86400 - StartRelativeAsWritten(values, 7, 86400) * 60 > 0 &&
      StartRelative(values, 7, 86400) == 1445
  {
    var values: Store := map[(0, 7) := 1.0];
    assert (0, 7) in values;
    assert Newest(values, 7, 0, 1) == Some(0);
    NewestSkips(values, 7, 0, 1, 86400);
  }

  /** Instants without values above the newest one do not change it. */
  lemma {:induction false} NewestSkips(values: Store, id: int, lo: int, mid: int, hi: int)
    requires lo <= mid <= hi
    requires forall t :: mid <= t < hi ==> (t, id) !in values
    ensures Newest(values, id, lo, hi) == Newest(values, id, lo, mid)
    decreases hi - mid
  {
    if hi > mid {
      NewestSkips(values, id, lo, mid, hi - 1);
    }
  }

  /** The two computations agree whenever the newest value is less than a day old. */
  lemma StartRelativeAgreement(values: Store, id: int, now: int)
    ensures StartRelativeAsWritten(values, id, now) == StartRelative(values, id, now) <==>
      Newest(values, id, now - MaxQueryTimeSlice * 60, now) != Some(now - MaxQueryTimeSlice * 60)
  {
    match Newest(values, id, now - MaxQueryTimeSlice * 60, now)
    case None =>
    case Some(newest) =>
      if now - newest < 86400 {
        assert (now - newest) % 86400 == now - newest;
      } else {
        assert now - newest == 86400;
      }
  }

  // ---------------------------------------------------------------------------------------
  // Writing the store

  /** The store after upserting each result minute of one indicator, clamped, in order. */
  function Stored(values: Store, id: int, result: seq<Reading>): Store
    decreases |result|
  {
    if |result| == 0 then values
    else Stored(values, id, result[..|result| - 1])[(Last(result).0, id) := Clamp(Last(result).1)]
  }

  /** After the upserts, each result minute holds its clamped value for this indicator. */
  lemma {:induction false} StoredHits(values: Store, id: int, result: seq<Reading>)
    requires DistinctKeys(result)
    ensures var s := Stored(values, id, result);
      forall i :: 0 <= i < |result| ==> (result[i].0, id) in s && s[(result[i].0, id)] == Clamp(result[i].1)
    decreases |result|
  {
    if |result| > 0 {
      var init := result[..|result| - 1];
      assert DistinctKeys(init);
      StoredHits(values, id, init);
      assert forall i :: 0 <= i < |init| ==> result[i] == init[i] && result[i].0 != Last(result).0;
    }
  }

  /** The upserts leave every other (timestamp, indicator) key as it was. */
  lemma {:induction false} StoredElsewhere(values: Store, id: int, result: seq<Reading>, k: (int, int))
    requires k.1 != id || k.0 !in Keys(result)
    ensures var s := Stored(values, id, result);
      (k in s <==> k in values) && (k in values ==> s[k] == values[k])
    decreases |result|
  {
    if |result| > 0 {
      var init := result[..|result| - 1];
      KeysOfPrefix(result, |result| - 1);
      StoredElsewhere(values, id, init, k);
      assert Keys(result)[|result| - 1] == Last(result).0;
    }
  }

  /** Every key of a prefix is a key of the whole. */
  lemma KeysOfPrefix<V>(d: seq<(int, V)>, n: nat)
    requires n <= |d|
    ensures forall x :: x in Keys(d[..n]) ==> x in Keys(d)
  {
    forall x | x in Keys(d[..n]) ensures x in Keys(d) {
      var i :| 0 <= i < n && Keys(d[..n])[i] == x;
      assert Keys(d)[i] == x;
    }
  }

  /** Repeating the upserts of a result changes nothing: the update is idempotent. */
  lemma StoredIdempotent(values: Store, id: int, result: seq<Reading>)
    requires DistinctKeys(result)
    ensures Stored(Stored(values, id, result), id, result) == Stored(values, id, result)
  {
    var s1 := Stored(values, id, result);
    var s2 := Stored(s1, id, result);
    StoredHits(values, id, result);
    StoredHits(s1, id, result);
    forall k | k in s2 || k in s1
      ensures k in s2 && k in s1 && s2[k] == s1[k]
    {
      if k.1 == id && k.0 in Keys(result) {
        var i :| 0 <= i < |result| && Keys(result)[i] == k.0;
        assert k == (result[i].0, id);
      } else {
        StoredElsewhere(values, id, result, k);
        StoredElsewhere(s1, id, result, k);
      }
    }
    assert s2 == s1;
  }

  // ---------------------------------------------------------------------------------------
  // Grouping for aggregates

  /** `itertools.groupby(values, key)`: runs of neighbours with the same key. */
  function GroupRuns(values: seq<Reading>, key: int -> int): (r: seq<(int, seq<Reading>)>)
    decreases |values|
  {
    if |values| == 0 then []
    else
      var init := GroupRuns(values[..|values| - 1], key);
      var x := Last(values);
      if |init| > 0 && Last(init).0 == key(x.0) then
        init[..|init| - 1] + [(key(x.0), Last(init).1 + [x])]
      else
        init + [(key(x.0), [x])]
  }

  function Flatten(groups: seq<(int, seq<Reading>)>): seq<Reading>
    decreases |groups|
  {
    if |groups| == 0 then [] else Flatten(groups[..|groups| - 1]) + Last(groups).1
  }

  /** The runs put back together are the values. */
  lemma {:induction false} GroupRunsFlatten(values: seq<Reading>, key: int -> int)
    ensures Flatten(GroupRuns(values, key)) == values
    decreases |values|
  {
    if |values| > 0 {
      var init := GroupRuns(values[..|values| - 1], key);
      GroupRunsFlatten(values[..|values| - 1], key);
      var x := Last(values);
      var r := GroupRuns(values, key);
      if |init| > 0 && Last(init).0 == key(x.0) {
        var front := init[..|init| - 1];
        assert r[..|r| - 1] == front;
        assert Flatten(init) == Flatten(front) + Last(init).1;
        assert Flatten(r) == Flatten(front) + (Last(init).1 + [x]);
      } else {
        assert r[..|r| - 1] == init;
      }
      assert values[..|values| - 1] + [x] == values;
    }
  }

  /** Each run is non-empty and neighbouring runs differ in key. */
  lemma {:induction false} GroupRunsSeparate(values: seq<Reading>, key: int -> int)
    ensures forall i :: 0 <= i < |GroupRuns(values, key)| ==> |GroupRuns(values, key)[i].1| > 0
    ensures forall i :: 0 < i < |GroupRuns(values, key)| ==>
      GroupRuns(values, key)[i - 1].0 != GroupRuns(values, key)[i].0
    decreases |values|
  {
    if |values| > 0 {
      var init := GroupRuns(values[..|values| - 1], key);
      GroupRunsSeparate(values[..|values| - 1], key);
      var x := Last(values);
      var r := GroupRuns(values, key);
      if |init| > 0 && Last(init).0 == key(x.0) {
        assert |r| == |init|;
        assert forall i :: 0 <= i < |init| - 1 ==> r[i] == init[i];
        assert r[|r| - 1].0 == init[|init| - 1].0;
      } else {
        assert forall i :: 0 <= i < |init| ==> r[i] == init[i];
      }
    }
  }

  /** The members of a run share the run's key. */
  lemma {:induction false} GroupRunsShareKey(values: seq<Reading>, key: int -> int)
    ensures forall i, j :: 0 <= i < |GroupRuns(values, key)| && 0 <= j < |GroupRuns(values, key)[i].1| ==>
      key(GroupRuns(values, key)[i].1[j].0) == GroupRuns(values, key)[i].0
    decreases |values|
  {
    if |values| > 0 {
      var init := GroupRuns(values[..|values| - 1], key);
      GroupRunsShareKey(values[..|values| - 1], key);
      var x := Last(values);
      var r := GroupRuns(values, key);
      if |init| > 0 && Last(init).0 == key(x.0) {
        var run := Last(init).1;
        assert forall i :: 0 <= i < |init| - 1 ==> r[i] == init[i];
        assert forall j :: 0 <= j < |run| ==> key(run[j].0) == key(x.0) by {
          assert forall j :: 0 <= j < |run| ==> run[j] == init[|init| - 1].1[j];
        }
        assert r[|r| - 1] == (key(x.0), run + [x]);
      } else {
        assert forall i :: 0 <= i < |init| ==> r[i] == init[i];
        assert r[|r| - 1] == (key(x.0), [x]);
      }
    }
  }

  // ---------------------------------------------------------------------------------------
  // The store

  /** The `indicatorvalue` table. */
  class IndicatorStore {
    /** (timestamp, indicator_id) -> value */
    var values: Store

    constructor ()
      ensures values == map[]
    {
      values := map[];
    }

    /**
     * `insert_indicator_value`: insert, or on a (timestamp, indicator_id) conflict overwrite
     * only the value.
     */
    method Upsert(timestamp: int, id: int, value: real)
      modifies this
      ensures values == old(values)[(timestamp, id) := value]
    {
      values := values[(timestamp, id) := value];
    }

    /**
     * `get_indicator_values`: one indicator's values in [start, end) in timestamp order,
     * paginated only when both page and per_page are truthy (zero stands for None).
     */
    method GetIndicatorValues(id: int, range: TimeRange, page: int, perPage: int)
      returns (items: seq<Reading>, pagination: Option<Page>)
      ensures var all := Window(values, id, range.start, range.end);
        if page != 0 && perPage != 0 then
          pagination == Some(Paginate(all, page, perPage)) && items == pagination.value.items
        else
          pagination == None && items == all
    {
      var all := Window(values, id, range.start, range.end);
      if page != 0 && perPage != 0 {
        var p := Paginate(all, page, perPage);
        return p.items, Some(p);
      }
      return all, None;
    }

    /** `get_indicator_value_aggregates`: the read window grouped by each resolution's unit. */
    method GetIndicatorValueAggregates(id: int, range: TimeRange, resolutions: set<string>,
                                       truncate: (int, string) -> int)
      returns (r: map<string, seq<(int, seq<Reading>)>>)
      ensures r.Keys == resolutions
      ensures forall u :: u in resolutions ==>
        r[u] == GroupRuns(Window(values, id, range.start, range.end), t => truncate(t, u))
    {
      var all, _ := GetIndicatorValues(id, range, 0, 0);
      r := map u | u in resolutions :: GroupRuns(all, t => truncate(t, u));
    }

    /**
     * `delete_all_indicator_values`: removes the values of every indicator with
     * from <= timestamp <= to, and counts them.
     */
    method DeleteAllIndicatorValues(range: TimeRange) returns (count: nat)
      modifies this
      ensures values == map k | k in old(values) && !(range.start <= k.0 <= range.end) :: old(values)[k]
      ensures count == |set k | k in old(values) && range.start <= k.0 <= range.end|
      ensures count + |values| == |old(values)|
    {
      var removed := set k | k in values && range.start <= k.0 <= range.end;
      var kept := map k | k in values && !(range.start <= k.0 <= range.end) :: values[k];
      assert values.Keys == removed + kept.Keys;
      assert removed * kept.Keys == {};
      count := |removed|;
      values := kept;
    }

    /**
     * `update_indicator_values`: query from the explicit relative start, or from the start
     * computed as written, with `.seconds`; then upsert every result minute, clamped, and
     * return how many there were. A response without minutes writes nothing.
     */
    method UpdateIndicatorValues(src: ZmonSource, fnmatch: Matcher, rs: seq<Series>, id: int,
                                 now: int, start: int, end: Option<int>)
      returns (query: KairosQuery, count: nat)
      modifies this
      ensures query == BuildQuery(src, if start != 0 then start else StartRelativeAsWritten(old(values), id, now), end)
      ensures count == |QueryResult(src, fnmatch, rs)|
      ensures values == Stored(old(values), id, QueryResult(src, fnmatch, rs))
    {
      var from := if start != 0 then start else StartRelativeAsWritten(values, id, now);
      query := BuildQuery(src, from, end);
      var result := ProcessResponse(src, fnmatch, rs);
      if |result| == 0 {
        return query, 0;
      }
      for i := 0 to |result|
        invariant values == Stored(old(values), id, result[..i])
      {
        assert result[..i + 1][..i] == result[..i];
        var (minute, val) := result[i];
        var v := val;
        if v > 0.0 {
          v := if v >= MinVal then v else MinVal;
        } else if v < 0.0 {
          v := if v <= -MinVal then v else -MinVal;
        }
        Upsert(minute, id, v);
      }
      assert result[..|result|] == result;
      count := |result|;
    }
  }

  /**
   * After an update, each minute of the response holds its clamped value for the indicator,
   * nothing else changed, and running the same update again changes nothing.
   */
  lemma UpdateMeaning(values: Store, src: ZmonSource, fnmatch: Matcher, rs: seq<Series>, id: int)
    requires src.aggType in AggregationTypes
    ensures var result := QueryResult(src, fnmatch, rs);
      var s := Stored(values, id, result);
      (forall i :: 0 <= i < |result| ==> (result[i].0, id) in s && s[(result[i].0, id)] == Clamp(result[i].1)) &&
      (forall k: (int, int) :: k.1 != id || k.0 !in Keys(result) ==>
         (k in s <==> k in values) && (k in values ==> s[k] == values[k])) &&
      Stored(s, id, result) == s
  {
    var result := QueryResult(src, fnmatch, rs);
    QueryResultMinutes(src, fnmatch, rs, 0);
    StoredHits(values, id, result);
    forall k: (int, int) | k.1 != id || k.0 !in Keys(result)
      ensures var s := Stored(values, id, result);
        (k in s <==> k in values) && (k in values ==> s[k] == values[k])
    {
      StoredElsewhere(values, id, result, k);
    }
    StoredIdempotent(values, id, result);
  }
}
