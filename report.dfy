/**
 * The product report: each objective's targets read their indicator's values, the values
 * are bucketed by day, and each day of each indicator is summarised (count, sum, average,
 * minimum, maximum and the breaches of the target's bounds).
 */
module Report {
  import opened Wrappers
  import opened PyStr
  import opened OrderedDict
  import Kairos
  import opened Resource

  // ---------------------------------------------------------------------------------------
  // Bucketing by day

  /** `truncate(ts, 'day')`: the midnight starting the day of an instant in seconds. */
  function DayOf(ts: int): (r: int)
    ensures r <= ts < r + 86400 && r % 86400 == 0
  {
    (ts / 86400) * 86400
  }

  /** The day buckets of `truncate_values`, in the order their days first appear. */
  type DayBuckets = seq<(int, seq<real>)>

  /** `truncated[day].append(value)` on a `defaultdict(list)` */
  function Append(d: DayBuckets, day: int, v: real): DayBuckets {
    Put(d, day, GetOr(d, day, []) + [v])
  }

  /** The buckets after the values read so far. */
  function Truncated(values: seq<(int, real)>): DayBuckets
    decreases |values|
  {
    if |values| == 0 then []
    else Append(Truncated(values[..|values| - 1]), DayOf(Last(values).0), Last(values).1)
  }

  /** `truncate_values`: each value appended to its day's bucket, in input order. */
  method TruncateValues(values: seq<(int, real)>) returns (truncated: DayBuckets)
    ensures truncated == Truncated(values)
  {
    truncated := [];
    for i := 0 to |values|
      invariant truncated == Truncated(values[..i])
    {
      assert values[..i + 1][..i] == values[..i];
      var (ts, v) := values[i];
      var day := DayOf(ts);
      truncated := Put(truncated, day, GetOr(truncated, day, []) + [v]);
    }
    assert values[..|values|] == values;
  }

  /** The values of one day, in input order. */
  function OfDay(values: seq<(int, real)>, day: int): seq<real>
    decreases |values|
  {
    if |values| == 0 then []
    else OfDay(values[..|values| - 1], day) + (if DayOf(Last(values).0) == day then [Last(values).1] else [])
  }

  /**
   * A day's bucket holds exactly that day's values in input order; a day has a bucket
   * exactly when it has a value; no day is listed twice.
   */
  lemma TruncatedMeaning(values: seq<(int, real)>, day: int)
    ensures GetOr(Truncated(values), day, []) == OfDay(values, day)
    ensures day in Keys(Truncated(values)) <==> |OfDay(values, day)| > 0
    ensures DistinctKeys(Truncated(values))
  {
    TruncatedBuckets(values, day);
    TruncatedDistinct(values);
  }

  lemma {:induction false} TruncatedBuckets(values: seq<(int, real)>, day: int)
    ensures GetOr(Truncated(values), day, []) == OfDay(values, day)
    ensures day in Keys(Truncated(values)) <==> |OfDay(values, day)| > 0
    decreases |values|
  {
    if |values| > 0 {
      var init := values[..|values| - 1];
      var d0 := DayOf(Last(values).0);
      TruncatedBuckets(init, day);
      var t := Truncated(init);
      PutMeaning(t, d0, GetOr(t, d0, []) + [Last(values).1], day);
      if day == d0 {
        assert Truncated(values) == Put(t, d0, GetOr(t, d0, []) + [Last(values).1]);
      }
    }
  }

  lemma {:induction false} TruncatedDistinct(values: seq<(int, real)>)
    ensures DistinctKeys(Truncated(values))
    decreases |values|
  {
    if |values| > 0 {
      var init := values[..|values| - 1];
      TruncatedDistinct(init);
      var t := Truncated(init);
      var d0 := DayOf(Last(values).0);
      PutDistinct(t, d0, GetOr(t, d0, []) + [Last(values).1]);
    }
  }

  /** Every bucket holds at least one value. */
  lemma TruncatedNonEmpty(values: seq<(int, real)>)
    ensures forall e :: e in Truncated(values) ==> |e.1| > 0
  {
    forall e | e in Truncated(values) ensures |e.1| > 0 {
      TruncatedMeaning(values, e.0);
      var i :| 0 <= i < |Truncated(values)| && Truncated(values)[i] == e;
      GetEntry(Truncated(values), i);
      assert e.0 in Keys(Truncated(values));
    }
  }

  // ---------------------------------------------------------------------------------------
  // A day's summary

  /**
   * A target bound after `bound or ±inf`: None (no bound) when the target has none or
   * when it is 0.
   */
  function EffectiveBound(b: Option<real>): (r: Option<real>)
    ensures r.Some? <==> b.Some? && b.value != 0.0
    ensures r.Some? ==> r == b
  {
    if b.Some? && b.value != 0.0 then b else None
  }

  predicate Within(v: real, from: Option<real>, to: Option<real>) {
    (from.None? || from.value <= v) && (to.None? || v <= to.value)
  }

  /** `len([v for v in values if from <= v <= to])` */
  function CountWithin(vs: seq<real>, from: Option<real>, to: Option<real>): (r: nat)
    ensures r <= |vs|
    decreases |vs|
  {
    if |vs| == 0 then 0
    else CountWithin(vs[..|vs| - 1], from, to) + (if Within(Last(vs), from, to) then 1 else 0)
  }

  datatype DayStats = DayStats(
    aggregation: Option<string>,
    avg: real,
    breaches: int,
    count: int,
    max: real,
    min: real,
    sum: real)

  /** The summary of one day of one target. */
  function Summarise(vs: seq<real>, from: Option<real>, to: Option<real>, aggregation: Option<string>): DayStats
    requires |vs| > 0
  {
    var lo := EffectiveBound(from);
    var hi := EffectiveBound(to);
    var sum := Kairos.SumOf(vs);
    DayStats(aggregation, sum / |vs| as real, |vs| - CountWithin(vs, lo, hi), |vs|,
             Kairos.MaxOf(vs), Kairos.MinOf(vs), sum)
  }

  /**
   * The count is the number of values, and the average lies between the smallest and the
   * largest value.
   */
  lemma SummariseAverage(vs: seq<real>, from: Option<real>, to: Option<real>, aggregation: Option<string>)
    requires |vs| > 0
    ensures Summarise(vs, from, to, aggregation).count == |vs|
    ensures Summarise(vs, from, to, aggregation).min <= Summarise(vs, from, to, aggregation).avg
    ensures Summarise(vs, from, to, aggregation).avg <= Summarise(vs, from, to, aggregation).max
  {
    var s := Summarise(vs, from, to, aggregation);
    Kairos.SumBounds(vs, s.min, s.max);
    Average(s, |vs| as real);
  }

  /** Stats whose sum lies between count times the minimum and count times the maximum. */
  lemma Average(s: DayStats, n: real)
    requires n > 0.0 && s.avg == s.sum / n && Kairos.Between(n, s.sum, s.min, s.max)
    ensures s.min <= s.avg <= s.max
  {
    Kairos.QuotientBetween(s.sum, n, s.min, s.max);
  }

  /**
   * The breaches are the values outside the effective bounds: never negative, never more
   * than the count, and none exactly when every value is within the bounds.
   */
  lemma SummariseBreaches(vs: seq<real>, from: Option<real>, to: Option<real>, aggregation: Option<string>)
    requires |vs| > 0
    ensures 0 <= Summarise(vs, from, to, aggregation).breaches <= |vs|
    ensures Summarise(vs, from, to, aggregation).breaches == 0 <==>
      forall i :: 0 <= i < |vs| ==> Within(vs[i], EffectiveBound(from), EffectiveBound(to))
  {
    CountWithinAll(vs, EffectiveBound(from), EffectiveBound(to));
  }

  /** All values are within the bounds exactly when all of them are counted. */
  lemma {:induction false} CountWithinAll(vs: seq<real>, from: Option<real>, to: Option<real>)
    ensures CountWithin(vs, from, to) == |vs| <==> forall i :: 0 <= i < |vs| ==> Within(vs[i], from, to)
    decreases |vs|
  {
    if |vs| > 0 {
      var init := vs[..|vs| - 1];
      CountWithinAll(init, from, to);
      assert forall i :: 0 <= i < |init| ==> init[i] == vs[i];
    }
  }

  /**
   * A lower bound of 0 is no bound at all: with from = 0 and to = 100 the day
   * [50, 150, -10, 99] has one breach, 150; -10 is not one.
   */
  lemma ZeroLowerBound()
    ensures Summarise([50.0, 150.0, -10.0, 99.0], Some(0.0), Some(100.0), None).breaches == 1
  {
    var vs := [50.0, 150.0, -10.0, 99.0];
    assert EffectiveBound(Some(0.0)) == None;
    assert vs[..1] == [50.0] && vs[..1][..0] == [];
    assert vs[..2] == [50.0, 150.0] && vs[..2][..1] == vs[..1];
    assert vs[..3] == [50.0, 150.0, -10.0] && vs[..3][..2] == vs[..2];
    assert vs[..4][..3] == vs[..3];
    assert CountWithin(vs[..1], None, Some(100.0)) == 1;
    assert CountWithin(vs[..2], None, Some(100.0)) == 1;
    assert CountWithin(vs[..3], None, Some(100.0)) == 2;
    assert vs[..4] == vs;
  }

  // ---------------------------------------------------------------------------------------
  // The summary

  /** A target with its indicator's fields and the values read for the report window. */
  datatype Target = Target(
    indicatorName: string,
    from: Option<real>,
    to: Option<real>,
    unit: string,
    aggregation: Option<string>,
    values: seq<(int, real)>)

  datatype Objective = Objective(id: int, title: string, description: string, targets: seq<Target>)

  datatype TargetInfo = TargetInfo(from: Option<real>, to: Option<real>, sliName: string, unit: string,
                                   aggregation: Option<string>)

  /** `days[day][indicator name]`, in the order days and names first appear. */
  type Days = seq<(int, seq<(string, DayStats)>)>

  datatype ObjectiveSummary = ObjectiveSummary(
    title: string,
    description: string,
    id: int,
    targets: seq<TargetInfo>,
    days: Days)

  predicate NonEmptyBuckets(buckets: DayBuckets) {
    forall e :: e in buckets ==> |e.1| > 0
  }

  /** `days[day][name] = {...}` for the first buckets of one target. */
  function AddBuckets(days: Days, t: Target, buckets: DayBuckets): Days
    requires NonEmptyBuckets(buckets)
    decreases |buckets|
  {
    if |buckets| == 0 then days
    else
      var (day, vs) := Last(buckets);
      assert Last(buckets) in buckets;
      var before := AddBuckets(days, t, buckets[..|buckets| - 1]);
      SetStats(before, day, t.indicatorName, Summarise(vs, t.from, t.to, t.aggregation))
  }

  /** `days[day][name] = stats`, the day's dict created when missing. */
  function SetStats(days: Days, day: int, name: string, stats: DayStats): Days {
    Put(days, day, Put(GetOr(days, day, []), name, stats))
  }

  /** The days of an objective after its first targets. */
  function ObjectiveDays(targets: seq<Target>): Days
    decreases |targets|
  {
    if |targets| == 0 then []
    else
      var t := Last(targets);
      TruncatedNonEmpty(t.values);
      AddBuckets(ObjectiveDays(targets[..|targets| - 1]), t, Truncated(t.values))
  }

  function Info(t: Target): TargetInfo {
    TargetInfo(t.from, t.to, t.indicatorName, t.unit, t.aggregation)
  }

  function Infos(targets: seq<Target>): (r: seq<TargetInfo>)
    ensures |r| == |targets|
    ensures forall i :: 0 <= i < |targets| ==> r[i] == Info(targets[i])
  {
    seq(|targets|, i requires 0 <= i < |targets| => Info(targets[i]))
  }

  /** The summary of the first objectives: the ones without targets are skipped. */
  function ReportSummary(objectives: seq<Objective>): seq<ObjectiveSummary>
    decreases |objectives|
  {
    if |objectives| == 0 then []
    else
      var o := Last(objectives);
      ReportSummary(objectives[..|objectives| - 1]) +
      (if |o.targets| == 0 then []
       else [ObjectiveSummary(o.title, o.description, o.id, Infos(o.targets), ObjectiveDays(o.targets))])
  }

  /** The loop over the day buckets of one target. */
  method AddTargetDays(days: Days, t: Target) returns (res: Days)
    ensures NonEmptyBuckets(Truncated(t.values))
    ensures res == AddBuckets(days, t, Truncated(t.values))
  {
    var truncated := TruncateValues(t.values);
    TruncatedNonEmpty(t.values);
    res := days;
    for k := 0 to |truncated|
      invariant NonEmptyBuckets(truncated[..k])
      invariant res == AddBuckets(days, t, truncated[..k])
    {
      assert truncated[..k + 1][..k] == truncated[..k];
      assert truncated[k] in truncated;
      var (day, vs) := truncated[k];
      var stats := Summarise(vs, t.from, t.to, t.aggregation);
      res := Put(res, day, Put(GetOr(res, day, []), t.indicatorName, stats));
    }
    assert truncated[..|truncated|] == truncated;
  }

  /** The loop over the targets of one objective. */
  method SummariseTargets(targets: seq<Target>) returns (days: Days)
    ensures days == ObjectiveDays(targets)
  {
    days := [];
    for j := 0 to |targets|
      invariant days == ObjectiveDays(targets[..j])
    {
      assert targets[..j + 1][..j] == targets[..j];
      days := AddTargetDays(days, targets[j]);
    }
    assert targets[..|targets|] == targets;
  }

  /**
   * `get_report_summary`: one summary per objective with targets. The unit is accepted and
   * never used: the buckets are days whatever it says.
   */
  method GetReportSummary(objectives: seq<Objective>, unit: string) returns (summary: seq<ObjectiveSummary>)
    ensures summary == ReportSummary(objectives)
  {
    summary := [];
    for i := 0 to |objectives|
      invariant summary == ReportSummary(objectives[..i])
    {
      assert objectives[..i + 1][..i] == objectives[..i];
      var o := objectives[i];
      if |o.targets| > 0 {
        var days := SummariseTargets(o.targets);
        summary := summary + [ObjectiveSummary(o.title, o.description, o.id, Infos(o.targets), days)];
      }
    }
    assert objectives[..|objectives|] == objectives;
  }

  /** The number of objectives with at least one target. */
  function WithTargets(objectives: seq<Objective>): nat
    decreases |objectives|
  {
    if |objectives| == 0 then 0
    else WithTargets(objectives[..|objectives| - 1]) + (if |Last(objectives).targets| > 0 then 1 else 0)
  }

  /**
   * The summary lists, in order, exactly the objectives that have targets, each with every
   * one of its targets described.
   */
  lemma {:induction false} ReportSummaryObjectives(objectives: seq<Objective>)
    ensures |ReportSummary(objectives)| == WithTargets(objectives)
    ensures forall s :: s in ReportSummary(objectives) ==>
      exists o :: o in objectives && |o.targets| > 0 && s.id == o.id && s.targets == Infos(o.targets)
    decreases |objectives|
  {
    if |objectives| > 0 {
      var init := objectives[..|objectives| - 1];
      ReportSummaryObjectives(init);
      forall o | o in init ensures o in objectives { }
      assert Last(objectives) in objectives;
    }
  }

  /** Whether one of the first targets has a value on the day. */
  predicate SomeValueOn(targets: seq<Target>, day: int) {
    exists j :: 0 <= j < |targets| && |OfDay(targets[j].values, day)| > 0
  }

  /** A day is reported for an objective exactly when one of its targets has a value that day. */
  lemma {:induction false} ObjectiveDaysKeys(targets: seq<Target>, day: int)
    ensures day in Keys(ObjectiveDays(targets)) <==> SomeValueOn(targets, day)
    decreases |targets|
  {
    if |targets| > 0 {
      var init := targets[..|targets| - 1];
      var t := Last(targets);
      ObjectiveDaysKeys(init, day);
      TruncatedNonEmpty(t.values);
      TruncatedMeaning(t.values, day);
      AddBucketsMeaning(ObjectiveDays(init), t, Truncated(t.values), day);
      assert forall j :: 0 <= j < |init| ==> init[j] == targets[j];
    }
  }

  /** Every target with a value on a reported day is listed under that day. */
  lemma {:induction false} ObjectiveDaysNames(targets: seq<Target>, day: int, j: nat)
    requires j < |targets| && |OfDay(targets[j].values, day)| > 0
    ensures targets[j].indicatorName in Keys(GetOr(ObjectiveDays(targets), day, []))
    decreases |targets|
  {
    var init := targets[..|targets| - 1];
    var t := Last(targets);
    TruncatedNonEmpty(t.values);
    TruncatedMeaning(t.values, day);
    AddBucketsMeaning(ObjectiveDays(init), t, Truncated(t.values), day);
    if j < |init| {
      assert init[j] == targets[j];
      ObjectiveDaysNames(init, day, j);
    }
  }

  /**
   * Adding a target's buckets adds exactly its days; each of them then lists the target's
   * indicator, and the names already listed under a day stay listed.
   */
  lemma AddBucketsMeaning(days: Days, t: Target, buckets: DayBuckets, day: int)
    requires NonEmptyBuckets(buckets)
    ensures day in Keys(AddBuckets(days, t, buckets)) <==> day in Keys(days) || day in Keys(buckets)
    ensures day in Keys(buckets) ==> t.indicatorName in Keys(GetOr(AddBuckets(days, t, buckets), day, []))
    ensures forall n :: n in Keys(GetOr(days, day, [])) ==> n in Keys(GetOr(AddBuckets(days, t, buckets), day, []))
  {
    AddBucketsDays(days, t, buckets, day);
    AddBucketsKeep(days, t, buckets, day);
    AddBucketsNamed(days, t, buckets, day);
  }

  /** All but the last bucket are non-empty too. */
  lemma NonEmptyInit(buckets: DayBuckets)
    requires NonEmptyBuckets(buckets) && |buckets| > 0
    ensures NonEmptyBuckets(buckets[..|buckets| - 1]) && |Last(buckets).1| > 0
  {
    assert Last(buckets) in buckets;
    forall e | e in buckets[..|buckets| - 1] ensures |e.1| > 0 {
      assert e in buckets;
    }
  }

  /** The last bucket's step of `AddBuckets`. */
  lemma AddBucketsLast(days: Days, t: Target, buckets: DayBuckets)
    requires NonEmptyBuckets(buckets) && |buckets| > 0
    ensures NonEmptyBuckets(buckets[..|buckets| - 1])
    ensures AddBuckets(days, t, buckets) ==
      SetStats(AddBuckets(days, t, buckets[..|buckets| - 1]), Last(buckets).0, t.indicatorName,
               Summarise(Last(buckets).1, t.from, t.to, t.aggregation))
  {
    NonEmptyInit(buckets);
    var init := buckets[..|buckets| - 1];
    var last := Last(buckets);
    assert AddBuckets(days, t, buckets) ==
      SetStats(AddBuckets(days, t, init), last.0, t.indicatorName, Summarise(last.1, t.from, t.to, t.aggregation));
  }

  /** The days of the buckets: those of all but the last, then the last's. */
  lemma BucketDaysLast(buckets: DayBuckets)
    requires |buckets| > 0
    ensures Keys(buckets) == Keys(buckets[..|buckets| - 1]) + [Last(buckets).0]
  {
    var init := buckets[..|buckets| - 1];
    assert forall i :: 0 <= i < |init| ==> init[i] == buckets[i];
  }

  lemma {:induction false} AddBucketsDays(days: Days, t: Target, buckets: DayBuckets, day: int)
    requires NonEmptyBuckets(buckets)
    ensures day in Keys(AddBuckets(days, t, buckets)) <==> day in Keys(days) || day in Keys(buckets)
    decreases |buckets|
  {
    if |buckets| > 0 {
      AddBucketsLast(days, t, buckets);
      var init := buckets[..|buckets| - 1];
      AddBucketsDays(days, t, init, day);
      BucketDaysLast(buckets);
      PutBucket(AddBuckets(days, t, init), Last(buckets).0, t.indicatorName, Summarise(Last(buckets).1, t.from, t.to, t.aggregation), day);
    }
  }

  lemma {:induction false} AddBucketsKeep(days: Days, t: Target, buckets: DayBuckets, day: int)
    requires NonEmptyBuckets(buckets)
    ensures forall n :: n in Keys(GetOr(days, day, [])) ==> n in Keys(GetOr(AddBuckets(days, t, buckets), day, []))
    decreases |buckets|
  {
    if |buckets| > 0 {
      AddBucketsLast(days, t, buckets);
      var init := buckets[..|buckets| - 1];
      AddBucketsKeep(days, t, init, day);
      PutBucket(AddBuckets(days, t, init), Last(buckets).0, t.indicatorName, Summarise(Last(buckets).1, t.from, t.to, t.aggregation), day);
    }
  }

  lemma {:induction false} AddBucketsNamed(days: Days, t: Target, buckets: DayBuckets, day: int)
    requires NonEmptyBuckets(buckets)
    ensures day in Keys(buckets) ==> t.indicatorName in Keys(GetOr(AddBuckets(days, t, buckets), day, []))
    decreases |buckets|
  {
    if |buckets| > 0 {
      AddBucketsLast(days, t, buckets);
      var init := buckets[..|buckets| - 1];
      AddBucketsNamed(days, t, init, day);
      BucketDaysLast(buckets);
      PutBucket(AddBuckets(days, t, init), Last(buckets).0, t.indicatorName, Summarise(Last(buckets).1, t.from, t.to, t.aggregation), day);
    }
  }

  /** One `days[d][name] = stats`: its effect on the keys of `day` and the names under it. */
  lemma PutBucket(before: Days, d: int, name: string, stats: DayStats, day: int)
    ensures day in Keys(SetStats(before, d, name, stats)) <==> day in Keys(before) || day == d
    ensures day == d ==> name in Keys(GetOr(SetStats(before, d, name, stats), day, []))
    ensures forall n :: n in Keys(GetOr(before, day, [])) ==> n in Keys(GetOr(SetStats(before, d, name, stats), day, []))
  {
    var inner := Put(GetOr(before, d, []), name, stats);
    PutMeaning(before, d, inner, day);
    forall n | n in Keys(GetOr(before, day, [])) ensures n in Keys(GetOr(Put(before, d, inner), day, [])) {
      if d == day {
        PutMeaning(GetOr(before, d, []), name, stats, n);
      }
    }
    if day == d {
      PutMeaning(GetOr(before, d, []), name, stats, name);
    }
  }

  // ---------------------------------------------------------------------------------------
  // The report request

  const ReportTypes: seq<string> := ["weekly", "monthly", "quarterly"]

  /** How far before now a report starts. */
  datatype Span = Days(days: nat) | Months(months: nat)

  function InvalidTypeDetail(reportType: Option<string>): string {
    "Report type (" + (if reportType.Some? then reportType.value else "None") +
    ") is invalid. Supported types are: ('weekly', 'monthly', 'quarterly')"
  }

  /**
   * `ReportResource.get`'s choice of window and unit: a week for weekly reports, one month
   * for monthly and three months for quarterly ones; the unit is the day for weekly reports
   * and the week otherwise. Any other type is a 404.
   */
  function ReportWindow(reportType: Option<string>): (r: Result<(Span, string), Problem>)
    ensures r.Ok? <==> reportType.Some? && reportType.value in ReportTypes
    ensures r.Ok? ==> (r.value.0.Days? <==> reportType.value == "weekly")
    ensures r.Ok? ==> (r.value.1 == "day" <==> reportType.value == "weekly")
    ensures r.Err? ==> r.error.status == 404
  {
    if reportType.None? || reportType.value !in ReportTypes then
      Err(Problem(404, "Resource not found", InvalidTypeDetail(reportType)))
    else
      var t := reportType.value;
      var span := if t == "weekly" then Days(7) else Months(if t == "monthly" then 1 else 3);
      Ok((span, if t == "weekly" then "day" else "week"))
  }

  /** The windows, one by one. */
  lemma ReportWindowValues()
    ensures ReportWindow(Some("weekly")) == Ok((Days(7), "day"))
    ensures ReportWindow(Some("monthly")) == Ok((Months(1), "week"))
    ensures ReportWindow(Some("quarterly")) == Ok((Months(3), "week"))
    ensures ReportWindow(None).Err?
  {
  }
}
