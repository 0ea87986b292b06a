/**
 * The older copies of the ZMON aggregation engine. `app/libs/zmon.py` (`query_sli`) is the
 * current engine's own text and is the `Kairos` model itself; `app/slo.py` and `hack.py`
 * bucket the same way but aggregate differently, and are modelled here against it.
 * Neither skips a series without values explicitly, but such a series adds no point, so
 * their buckets are `Kairos.BucketSeries` too.
 */
module Variants {
  import opened Wrappers
  import opened PyStr
  import opened OrderedDict
  import opened Kairos

  // ---------------------------------------------------------------------------------------
  // app/slo.py

  /** The aggregation types `process_sli` of app/slo.py handles. */
  const SloTypes: seq<string> := ["weighted", "average", "sum"]

  /** The minutes and values `process_sli` of app/slo.py computes. */
  function SloResult(src: ZmonSource, fnmatch: Matcher, rs: seq<Series>): seq<(int, real)> {
    if src.aggType in SloTypes then QueryResult(src, fnmatch, rs) else []
  }

  /**
   * `process_sli` of app/slo.py: the buckets, then a value for every minute when the type
   * is weighted, average or sum; it returns how many minutes got one.
   */
  method SloProcessSli(src: ZmonSource, fnmatch: Matcher, rs: seq<Series>) returns (count: nat)
    ensures count == |SloResult(src, fnmatch, rs)|
  {
    var res := Bucket(src, fnmatch, rs);
    BucketsAggregable(src, fnmatch, rs);
    var res2: seq<(int, real)> := [];
    if src.aggType in SloTypes {
      res2 := AggregateBuckets(src.aggType, res);
    }
    count := |res2|;
  }

  /**
   * For weighted, average and sum the old engine computes what the current one does; for
   * min and max it computes nothing, where the current engine gives every counted minute a
   * value.
   */
  lemma SloVersions(src: ZmonSource, fnmatch: Matcher, rs: seq<Series>, m: int)
    ensures src.aggType in SloTypes ==> SloResult(src, fnmatch, rs) == QueryResult(src, fnmatch, rs)
    ensures src.aggType in ["min", "max", "minimum", "maximum"] ==>
      SloResult(src, fnmatch, rs) == [] &&
      (m in Keys(QueryResult(src, fnmatch, rs)) <==>
       exists i :: 0 <= i < |rs| && Counted(src, fnmatch, rs[i]) && HitsMinute(rs[i], m))
  {
    QueryResultMinutes(src, fnmatch, rs, m);
  }

  // ---------------------------------------------------------------------------------------
  // hack.py

  /** A group counts in hack.py's weighted aggregation only with both a weight and a value. */
  predicate Complete(slot: Slot) {
    slot.value.Some? && slot.weight.Some?
  }

  /** `total_weight` of hack.py: the weights of the complete groups. */
  function StrictTotalWeight(groups: Groups): real
    decreases |groups|
  {
    if |groups| == 0 then 0.0
    else
      var slot := Last(groups).1;
      StrictTotalWeight(groups[..|groups| - 1]) + (if Complete(slot) then slot.weight.value else 0.0)
  }

  /** `total_value` of hack.py: each complete group's value times its weight. */
  function StrictTotalValue(groups: Groups): real
    decreases |groups|
  {
    if |groups| == 0 then 0.0
    else
      var slot := Last(groups).1;
      StrictTotalValue(groups[..|groups| - 1])
        + (if Complete(slot) then slot.value.value * slot.weight.value else 0.0)
  }

  /** The totals loop of hack.py's weighted aggregation. */
  method StrictTotals(groups: Groups) returns (totalWeight: real, totalValue: real)
    ensures totalWeight == StrictTotalWeight(groups)
    ensures totalValue == StrictTotalValue(groups)
  {
    totalWeight, totalValue := 0.0, 0.0;
    for i := 0 to |groups|
      invariant totalWeight == StrictTotalWeight(groups[..i])
      invariant totalValue == StrictTotalValue(groups[..i])
    {
      assert groups[..i + 1][..i] == groups[..i];
      assert Last(groups[..i + 1]) == groups[i];
      var entry := groups[i].1;
      if entry.weight.Some? && entry.value.Some? {
        totalWeight := totalWeight + entry.weight.value;
        totalValue := totalValue + entry.value.value * entry.weight.value;
      }
    }
    assert groups[..|groups|] == groups;
  }

  /** Where every group is complete, the strict totals are the current engine's totals. */
  lemma {:induction false} StrictTotalsComplete(groups: Groups)
    requires forall i :: 0 <= i < |groups| ==> Complete(groups[i].1)
    ensures StrictTotalWeight(groups) == TotalWeight(groups)
    ensures StrictTotalValue(groups) == TotalWeightedValue(groups)
    decreases |groups|
  {
    if |groups| > 0 {
      StrictTotalsComplete(groups[..|groups| - 1]);
      assert Complete(groups[|groups| - 1].1);
    }
  }

  /**
   * One minute of hack.py: weighted divides by the strict total weight without a guard,
   * sum adds the values, and every other type yields nothing.
   */
  function HackMinute(kind: string, groups: Groups): (r: Result<Option<real>, HackError>)
    requires kind == "sum" ==> AllValued(groups)
    ensures r.Err? <==> kind == "weighted" && StrictTotalWeight(groups) == 0.0
    ensures r.Ok? ==> (r.value.Some? <==> kind == "weighted" || kind == "sum")
  {
    if kind == "weighted" then
      var totalWeight := StrictTotalWeight(groups);
      if totalWeight == 0.0 then Err(ZeroDivision)
      else Ok(Some(StrictTotalValue(groups) / totalWeight))
    else if kind == "sum" then Ok(Some(SumOf(ValuesOf(groups))))
    else Ok(None)
  }

  /** The one exception hack.py's aggregation can raise. */
  datatype HackError = ZeroDivision

  /** The `res2` of hack.py over the minutes in order; the first failing minute raises. */
  function HackAll(kind: string, b: Buckets): Result<seq<(int, real)>, HackError>
    requires kind == "sum" ==> BucketsValued(b)
    decreases |b|
  {
    if |b| == 0 then Ok([])
    else
      assert Last(b) in b;
      match HackAll(kind, b[..|b| - 1])
      case Err(e) => Err(e)
      case Ok(init) =>
        match HackMinute(kind, Last(b).1)
        case Err(e) => Err(e)
        case Ok(None) => Ok(init)
        case Ok(Some(v)) => Ok(init + [(Last(b).0, v)])
  }

  /** Once a prefix of the minutes fails, the whole run fails the same way. */
  lemma {:induction false} HackAllFailurePersists(kind: string, b: Buckets, i: nat)
    requires kind == "sum" ==> BucketsValued(b)
    requires i <= |b|
    requires HackAll(kind, b[..i]).Err?
    ensures HackAll(kind, b) == HackAll(kind, b[..i])
    decreases |b| - i
  {
    if i < |b| {
      assert b[..i + 1][..i] == b[..i];
      HackAllFailurePersists(kind, b, i + 1);
    } else {
      assert b[..i] == b;
    }
  }

  /** The aggregation loop of hack.py's `process_sli`. */
  method HackAggregate(kind: string, b: Buckets) returns (r: Result<seq<(int, real)>, HackError>)
    requires kind == "sum" ==> BucketsValued(b)
    ensures r == HackAll(kind, b)
  {
    var res2: seq<(int, real)> := [];
    for i := 0 to |b|
      invariant HackAll(kind, b[..i]) == Ok(res2)
    {
      assert b[..i + 1][..i] == b[..i];
      assert Last(b[..i + 1]) == b[i];
      var (minute, values) := b[i];
      if kind == "weighted" {
        var totalWeight, totalValue := StrictTotals(values);
        if totalWeight == 0.0 {
          HackAllFailurePersists(kind, b, i + 1);
          return Err(ZeroDivision);
        }
        res2 := res2 + [(minute, totalValue / totalWeight)];
      } else if kind == "sum" {
        assert b[i] in b;
        var totalValue := SumValues(values);
        res2 := res2 + [(minute, totalValue)];
      }
    }
    assert b[..|b|] == b;
    return Ok(res2);
  }

  /** What hack.py's `process_sli` computes for a response's result series. */
  function HackResult(src: ZmonSource, fnmatch: Matcher, rs: seq<Series>): Result<seq<(int, real)>, HackError> {
    if src.aggType == "sum" then
      BucketSeriesValued(src, fnmatch, rs);
      HackAll(src.aggType, BucketSeries(src, fnmatch, rs))
    else HackAll(src.aggType, BucketSeries(src, fnmatch, rs))
  }

  /** hack.py's `process_sli`: the buckets, then the aggregation. */
  method HackProcessSli(src: ZmonSource, fnmatch: Matcher, rs: seq<Series>) returns (r: Result<seq<(int, real)>, HackError>)
    ensures r == HackResult(src, fnmatch, rs)
  {
    var res := Bucket(src, fnmatch, rs);
    if src.aggType == "sum" {
      BucketSeriesValued(src, fnmatch, rs);
    }
    r := HackAggregate(src.aggType, res);
  }

  /** The weighted run fails exactly when some minute has no complete group with weight. */
  lemma {:induction false} HackAllFails(b: Buckets)
    ensures HackAll("weighted", b).Err? <==> exists i :: 0 <= i < |b| && StrictTotalWeight(b[i].1) == 0.0
    decreases |b|
  {
    if |b| > 0 {
      var init := b[..|b| - 1];
      HackAllFails(init);
      assert forall i :: 0 <= i < |init| ==> init[i] == b[i];
      if exists i :: 0 <= i < |b| && StrictTotalWeight(b[i].1) == 0.0 {
        var i :| 0 <= i < |b| && StrictTotalWeight(b[i].1) == 0.0;
        if i < |init| {
          assert init[i] == b[i];
        }
      }
    }
  }

  /** For sum the two engines agree on every minute. */
  lemma {:induction false} HackSumAgrees(b: Buckets)
    requires BucketsValued(b)
    ensures AllAggregable("sum", b)
    ensures HackAll("sum", b) == Ok(AggregateAll("sum", b))
    decreases |b|
  {
    assert AllAggregable("sum", b) by {
      forall i | 0 <= i < |b| ensures Aggregable("sum", b[i].1) {
        assert b[i] in b;
      }
    }
    if |b| > 0 {
      var init := b[..|b| - 1];
      assert BucketsValued(init) by {
        forall e | e in init ensures AllValued(e.1) {
          assert e in b;
        }
      }
      HackSumAgrees(init);
    }
  }

  /**
   * For weighted the engines agree where every group of every minute is complete and
   * carries some weight.
   */
  lemma {:induction false} HackWeightedAgrees(b: Buckets)
    requires forall i, j :: 0 <= i < |b| && 0 <= j < |b[i].1| ==> Complete(b[i].1[j].1)
    requires forall i :: 0 <= i < |b| ==> TotalWeight(b[i].1) != 0.0
    ensures AllAggregable("weighted", b)
    ensures HackAll("weighted", b) == Ok(AggregateAll("weighted", b))
    decreases |b|
  {
    if |b| > 0 {
      var init := b[..|b| - 1];
      assert forall i :: 0 <= i < |init| ==> init[i] == b[i];
      HackWeightedAgrees(init);
      StrictTotalsComplete(Last(b).1);
    }
  }

  /**
   * A group with a value but no weight: the current engine weighs it 1 and reports its
   * value; hack.py ignores it and, with nothing else in the minute, divides by zero.
   */
  lemma HackMissingWeight()
    ensures var groups: Groups := [(("host", "requests"), Slot(Some(5.0), None))];
      Aggregate("weighted", groups) == Some(5.0) && HackMinute("weighted", groups) == Err(ZeroDivision)
  {
    var groups: Groups := [(("host", "requests"), Slot(Some(5.0), None))];
    assert groups[..0] == [];
  }
}
