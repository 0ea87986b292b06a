/**
 * The weekly report renderer (`zmon_slr/generate_slr.py`): how it words durations, rounds and
 * picks aggregates, titles SLI names, classes each day's cell, totals an SLO's breaches and
 * samples, judges each target, fixes the report's period, and retries the API.
 */
module SlrRender {
  import opened Wrappers
  import opened PyStr
  import opened OrderedDict
  import Kairos

  // ---------------------------------------------------------------------------------------
  // Durations

  /**
   * `human_time`'s nonzero parts as (count, unit): whole days, then hours, then minutes.
   * Python's `//` and `%` by a positive divisor agree with Dafny's on every integer.
   */
  function HumanPairs(minutes: int): seq<(int, string)> {
    var days := minutes / 1440;
    var remainder := minutes % 1440;
    var hours := remainder / 60;
    var mins := remainder % 60;
    (if days != 0 then [(days, "day(s)")] else []) +
    (if hours != 0 then [(hours, "hour(s)")] else []) +
    (if mins != 0 then [(mins, "minute(s)")] else [])
  }

  /** `'{} unit'.format(count)` for each part. */
  function PairParts(ps: seq<(int, string)>): (r: seq<string>)
    ensures |r| == |ps|
    decreases |ps|
  {
    if |ps| == 0 then [] else [IntToString(ps[0].0) + " " + ps[0].1] + PairParts(ps[1..])
  }

  /** `human_time`: the nonzero parts joined by single spaces. */
  function HumanTime(minutes: int): string {
    Join(PairParts(HumanPairs(minutes)), " ")
  }

  /** The words of the parts: each count, then its unit. */
  function PairTokens(ps: seq<(int, string)>): (r: seq<string>)
    ensures |r| == 2 * |ps|
    decreases |ps|
  {
    if |ps| == 0 then [] else [IntToString(ps[0].0), ps[0].1] + PairTokens(ps[1..])
  }

  function UnitMinutes(unit: string): Option<int> {
    if unit == "day(s)" then Some(1440)
    else if unit == "hour(s)" then Some(60)
    else if unit == "minute(s)" then Some(1)
    else None
  }

  /** The minutes a run of (count, unit) words stands for. */
  function ReadTokens(tokens: seq<string>): Option<int>
    decreases |tokens|
  {
    if |tokens| == 0 then Some(0)
    else if |tokens| == 1 then None
    else
      var n := ParseInt(tokens[0]);
      var u := UnitMinutes(tokens[1]);
      var rest := ReadTokens(tokens[2..]);
      if n.Some? && u.Some? && rest.Some? then Some(n.value * u.value + rest.value) else None
  }

  /** Reading a worded duration back into minutes. */
  function ReadHumanTime(s: string): Option<int> {
    if |s| == 0 then Some(0) else ReadTokens(Split(s, ' '))
  }

  /** The minutes the parts stand for. */
  function PairsTotal(ps: seq<(int, string)>): int
    decreases |ps|
  {
    if |ps| == 0 then 0 else PartMinutes(ps[0]) + PairsTotal(ps[1..])
  }

  function PartMinutes(p: (int, string)): int {
    p.0 * UnitMinutes(p.1).GetOr(0)
  }

  /**
   * The worded duration reads back as the minutes it was made from, so no two durations
   * share a wording; only zero minutes gives the empty text.
   */
  lemma HumanTimeRoundTrip(minutes: int)
    ensures ReadHumanTime(HumanTime(minutes)) == Some(minutes)
    ensures HumanTime(minutes) == "" <==> minutes == 0
  {
    var ps := HumanPairs(minutes);
    PairsTotalOfHuman(minutes);
    JoinPairs(ps);
    ReadPairTokens(ps);
    var tokens := PairTokens(ps);
    assert HumanTime(minutes) == Join(tokens, " ");
    if |ps| == 0 {
      assert minutes == PairsTotal(ps) == 0;
      assert Join(tokens, " ") == "";
    } else {
      PairTokensFree(ps);
      assert " " == [' '];
      SplitJoin(tokens, ' ');
      assert |tokens[0]| > 0 by { assert tokens[0] == IntToString(ps[0].0); }
      JoinNonEmpty(tokens, " ");
      assert ReadHumanTime(Join(tokens, " ")) == ReadTokens(tokens);
    }
  }

  /** A join whose first part is not empty is not empty. */
  lemma JoinNonEmpty(parts: seq<string>, sep: string)
    requires |parts| > 0 && |parts[0]| > 0
    ensures |Join(parts, sep)| > 0
  {
  }

  /** Different durations are worded differently. */
  lemma HumanTimeInjective(a: int, b: int)
    requires HumanTime(a) == HumanTime(b)
    ensures a == b
  {
    HumanTimeRoundTrip(a);
    HumanTimeRoundTrip(b);
  }

  lemma {:induction false} JoinPairs(ps: seq<(int, string)>)
    ensures Join(PairParts(ps), " ") == Join(PairTokens(ps), " ")
    decreases |ps|
  {
    if |ps| > 0 {
      var a, b := IntToString(ps[0].0), ps[0].1;
      var rest := PairTokens(ps[1..]);
      assert PairTokens(ps)[1..] == [b] + rest;
      if |ps| == 1 {
        assert ([b] + rest) == [b];
      } else {
        JoinPairs(ps[1..]);
        assert PairParts(ps)[1..] == PairParts(ps[1..]);
        assert ([b] + rest)[1..] == rest;
      }
    }
  }

  lemma {:induction false} ReadPairTokens(ps: seq<(int, string)>)
    requires forall p :: p in ps ==> UnitMinutes(p.1).Some?
    ensures ReadTokens(PairTokens(ps)) == Some(PairsTotal(ps))
    decreases |ps|
  {
    if |ps| > 0 {
      assert ps[0] in ps;
      assert forall p :: p in ps[1..] ==> p in ps;
      ReadPairTokens(ps[1..]);
      ParseIntToString(ps[0].0);
      assert PairTokens(ps)[2..] == PairTokens(ps[1..]);
    }
  }

  lemma {:induction false} PairsTotalAppend(a: seq<(int, string)>, b: seq<(int, string)>)
    ensures PairsTotal(a + b) == PairsTotal(a) + PairsTotal(b)
    decreases |a|
  {
    if |a| > 0 {
      PairsTotalAppend(a[1..], b);
      assert (a + b)[0] == a[0] && (a + b)[1..] == a[1..] + b;
      assert PairsTotal(a + b) == PartMinutes(a[0]) + PairsTotal(a[1..] + b);
    } else {
      assert a + b == b;
    }
  }

  lemma PairsTotalOfHuman(minutes: int)
    ensures PairsTotal(HumanPairs(minutes)) == minutes
    ensures forall p :: p in HumanPairs(minutes) ==> UnitMinutes(p.1).Some? && ' ' !in p.1
  {
    var days := minutes / 1440;
    var remainder := minutes % 1440;
    var hours := remainder / 60;
    var mins := remainder % 60;
    var d: seq<(int, string)> := if days != 0 then [(days, "day(s)")] else [];
    var h: seq<(int, string)> := if hours != 0 then [(hours, "hour(s)")] else [];
    var m: seq<(int, string)> := if mins != 0 then [(mins, "minute(s)")] else [];
    PairsTotalAppend(d, h);
    PairsTotalAppend(d + h, m);
    assert PairsTotal(d) == days * 1440;
    assert PairsTotal(h) == hours * 60;
    assert PairsTotal(m) == mins;
  }

  lemma IntToStringNoSpace(i: int)
    ensures ' ' !in IntToString(i)
  {
    var s := NatToString(if i < 0 then -i else i);
    assert forall c :: c in s ==> IsDigit(c);
    if i < 0 {
      assert IntToString(i) == "-" + s;
    }
  }

  lemma {:induction false} PairTokensFree(ps: seq<(int, string)>)
    requires forall p :: p in ps ==> ' ' !in p.1
    ensures forall t :: t in PairTokens(ps) ==> ' ' !in t
    decreases |ps|
  {
    if |ps| > 0 {
      assert ps[0] in ps;
      assert forall p :: p in ps[1..] ==> p in ps;
      PairTokensFree(ps[1..]);
      IntToStringNoSpace(ps[0].0);
    }
  }

  // ---------------------------------------------------------------------------------------
  // Aggregates

  /** `round(x, 2)`: the nearest hundredth. */
  function Round2(x: real): (r: real)
    ensures x - 0.005 < r <= x + 0.005
  {
    ((x * 100.0 + 0.5).Floor as real) / 100.0
  }

  /** A rounded value is already a whole number of hundredths. */
  lemma Round2Idempotent(x: real)
    ensures Round2(Round2(x)) == Round2(x)
  {
    var f := (x * 100.0 + 0.5).Floor;
    assert Round2(x) * 100.0 == f as real;
    assert (f as real + 0.5).Floor == f;
  }

  /** A figure of the report data: one number (or null), or the list of the daily numbers. */
  datatype Figure = Scalar(value: Option<real>) | Series(values: seq<real>)

  /** The four figures `get_aggregate` can read. */
  datatype Figures = Figures(avg: Figure, max: Figure, min: Figure, sum: Figure)

  /** The four figure names: 'avg', 'max', 'min' and 'sum'. */
  datatype Col = Avg | Max | Min | Sum

  /** The figure an aggregation reads: 'avg' for average and weighted, and so on. */
  function Column(aggregation: string): Option<Col> {
    if aggregation == "average" || aggregation == "weighted" then Some(Avg)
    else if aggregation == "max" || aggregation == "maximum" then Some(Max)
    else if aggregation == "min" || aggregation == "minimum" then Some(Min)
    else if aggregation == "sum" then Some(Sum)
    else None
  }

  function Select(data: Figures, column: Col): Figure {
    match column
    case Avg => data.avg
    case Max => data.max
    case Min => data.min
    case Sum => data.sum
  }

  /** A list is reduced by mean, max, min or sum; an empty list has no value. */
  function Reduced(column: Col, f: Figure): Option<real> {
    match f
    case Scalar(v) => v
    case Series(xs) =>
      if |xs| == 0 then None
      else
        match column
        case Avg => Some(Kairos.SumOf(xs) / |xs| as real)
        case Max => Some(Kairos.MaxOf(xs))
        case Min => Some(Kairos.MinOf(xs))
        case Sum => Some(Kairos.SumOf(xs))
  }

  /**
   * `get_aggregate`: the figure the aggregation names, reduced and rounded to hundredths; no
   * value and zero both give 0.0, and an unknown aggregation leaves `val` unbound.
   */
  function GetAggregate(aggregation: string, data: Figures): Result<real, string> {
    match Column(aggregation)
    case None => Err("UnboundLocalError")
    case Some(c) =>
      var val := Reduced(c, Select(data, c));
      Ok(if val.None? || val.value == 0.0 then 0.0 else Round2(val.value))
  }

  /**
   * Exactly the seven aggregation names are understood, and a figure without a value reads
   * as 0.0, which is how a target with no data is shown.
   */
  lemma GetAggregateDefined(aggregation: string, data: Figures)
    ensures GetAggregate(aggregation, data).Ok? <==>
      aggregation in ["average", "weighted", "max", "maximum", "min", "minimum", "sum"]
    ensures Column(aggregation).Some? && Reduced(Column(aggregation).value, Select(data, Column(aggregation).value)).None? ==>
      GetAggregate(aggregation, data) == Ok(0.0)
  {
  }

  /** The mean, maximum or minimum of a list lies, up to rounding, between its extremes. */
  lemma AggregateWithinRange(aggregation: string, data: Figures, xs: seq<real>)
    requires Column(aggregation).Some? && Column(aggregation).value != Sum
    requires Select(data, Column(aggregation).value) == Series(xs) && |xs| > 0
    ensures GetAggregate(aggregation, data).Ok?
    ensures Kairos.MinOf(xs) - 0.005 < GetAggregate(aggregation, data).value <= Kairos.MaxOf(xs) + 0.005
  {
    var c := Column(aggregation).value;
    var lo, hi := Kairos.MinOf(xs), Kairos.MaxOf(xs);
    var v := Reduced(c, Series(xs)).value;
    if c == Avg {
      Kairos.SumBounds(xs, lo, hi);
      Kairos.QuotientBetween(Kairos.SumOf(xs), |xs| as real, lo, hi);
    }
    assert lo <= v <= hi;
    RoundedWithin(v, lo, hi);
  }

  lemma RoundedWithin(v: real, lo: real, hi: real)
    requires lo <= v <= hi
    ensures lo - 0.005 < (if v == 0.0 then 0.0 else Round2(v)) <= hi + 0.005
  {
  }

  /**
   * `get_aggregate` as its callers evidently intend it: a figure without a value stays
   * without one (shown as '-'), a zero stays 0.0.
   */
  function AggregateOrNone(aggregation: string, data: Figures): (r: Result<Option<real>, string>)
    ensures r.Ok? <==> GetAggregate(aggregation, data).Ok?
    ensures r.Ok? && r.value.Some? ==> GetAggregate(aggregation, data) == Ok(r.value.value)
    ensures r.Ok? && r.value.None? ==> GetAggregate(aggregation, data) == Ok(0.0)
  {
    match Column(aggregation)
    case None => Err("UnboundLocalError")
    case Some(c) =>
      var val := Reduced(c, Select(data, c));
      Ok(if val.None? then None else if val.value == 0.0 then Some(0.0) else Some(Round2(val.value)))
  }

  // ---------------------------------------------------------------------------------------
  // SLI titles

  /**
   * `str.title()` on ASCII text: a letter is upper-cased when it starts a run of letters and
   * lower-cased inside one; everything else is kept.
   */
  function Title(s: string): (r: string)
    ensures |r| == |s|
    ensures forall i :: 0 <= i < |s| ==>
      r[i] == (if i > 0 && IsLetter(s[i - 1]) then LowerChar(s[i]) else UpperChar(s[i]))
  {
    seq(|s|, i requires 0 <= i < |s| => if i > 0 && IsLetter(s[i - 1]) then LowerChar(s[i]) else UpperChar(s[i]))
  }

  /** `title`: title-cased, then underscores and dots become spaces. */
  function SliTitle(s: string): string {
    ReplaceChar(ReplaceChar(Title(s), '_', ' '), '.', ' ')
  }

  /**
   * A title has no underscore or dot, starts each word with a capital and continues it in
   * lower case, and differs from the name only in case and in those separators.
   */
  lemma SliTitleShape(s: string)
    ensures |SliTitle(s)| == |s|
    ensures '_' !in SliTitle(s) && '.' !in SliTitle(s)
    ensures forall i :: 0 <= i < |s| && IsLetter(s[i]) ==>
      if i > 0 && IsLetter(s[i - 1]) then IsLower(SliTitle(s)[i]) else IsUpper(SliTitle(s)[i])
    ensures Lower(SliTitle(s)) == Lower(ReplaceChar(ReplaceChar(s, '_', ' '), '.', ' '))
  {
    var r := SliTitle(s);
    assert forall i :: 0 <= i < |s| ==> r[i] != '_' && r[i] != '.';
    SliTitleLower(s);
  }

  /** The separator rule of `title` on one character: '_' and '.' become spaces. */
  function Unseparated(c: char): char {
    if c == '_' || c == '.' then ' ' else c
  }

  /** Changing a character's case does not change it once separators are gone and it is lower-cased. */
  lemma CaseThenUnseparated(c: char)
    ensures LowerChar(Unseparated(UpperChar(c))) == LowerChar(Unseparated(c))
    ensures LowerChar(Unseparated(LowerChar(c))) == LowerChar(Unseparated(c))
  {
  }

  lemma SliTitleLower(s: string)
    ensures Lower(SliTitle(s)) == Lower(ReplaceChar(ReplaceChar(s, '_', ' '), '.', ' '))
  {
    var a := Lower(SliTitle(s));
    var b := Lower(ReplaceChar(ReplaceChar(s, '_', ' '), '.', ' '));
    forall i | 0 <= i < |s|
      ensures a[i] == b[i]
    {
      CaseThenUnseparated(s[i]);
      assert a[i] == LowerChar(Unseparated(Title(s)[i]));
      assert b[i] == LowerChar(Unseparated(s[i]));
    }
  }

  /** Titling a title changes nothing. */
  lemma SliTitleIdempotent(s: string)
    ensures SliTitle(SliTitle(s)) == SliTitle(s)
  {
    var r := SliTitle(s);
    var rr := SliTitle(r);
    assert forall i :: 0 <= i < |s| ==> (IsLetter(r[i]) <==> IsLetter(s[i]));
    assert |rr| == |r|;
    assert forall i :: 0 <= i < |r| ==> rr[i] == r[i];
  }

  // ---------------------------------------------------------------------------------------
  // Day cells

  /** One SLI's figures for one day, as the report API returns them. */
  datatype SliDay = SliDay(aggregation: string, avg: real, breaches: int, count: int, max: real, min: real, sum: real)

  /** An SLO target as the report API returns it. */
  datatype Target = Target(sliName: string, unit: string, from: Option<real>, to: Option<real>, aggregation: string)

  /** A bound is in force when it is set and nonzero. */
  predicate Given(bound: Option<real>) {
    bound.Some? && bound.value != 0.0
  }

  /** A value breaks the target: above a given `to`, or else below a given `from`. */
  predicate Red(t: Target, value: real) {
    if Given(t.to) && value > t.to.value then true
    else Given(t.from) && value < t.from.value
  }

  /** A day with fewer samples than this (a day has 1440 minutes) is flagged. */
  const EnoughSamples: int := 1400

  /** The unit of the last target of the SLI, or none. */
  function UnitFor(sli: string, targets: seq<Target>): string
    decreases |targets|
  {
    if |targets| == 0 then ""
    else if Last(targets).sliName == sli then Last(targets).unit
    else UnitFor(sli, targets[..|targets| - 1])
  }

  /** Some target of the SLI among `ts` is broken by the value. */
  predicate RedAmong(sli: string, value: real, ts: seq<Target>) {
    exists t :: t in ts && t.sliName == sli && Red(t, value)
  }

  lemma RedAmongSnoc(sli: string, value: real, ts: seq<Target>, i: int)
    requires 0 <= i < |ts|
    ensures RedAmong(sli, value, ts[..i + 1]) <==> RedAmong(sli, value, ts[..i]) || (ts[i].sliName == sli && Red(ts[i], value))
  {
    assert ts[..i + 1] == ts[..i] + [ts[i]];
  }

  /**
   * The classes of a day's cell: 'orange' for a day with breaches, 'red' when the day's
   * average breaks a target of the SLI, 'ok' for neither, and 'not-enough-samples' beside
   * any of them when the day has too few samples. The cell's aggregate is the day's figure
   * that its aggregation names; an aggregation `get_aggregate` does not know aborts the report.
   */
  method DayCell(sli: string, day: SliDay, targets: seq<Target>)
    returns (classes: set<string>, unit: string, aggregate: Result<real, string>)
    ensures "orange" in classes <==> day.breaches != 0
    ensures "red" in classes <==> exists t :: t in targets && t.sliName == sli && Red(t, day.avg)
    ensures "ok" in classes <==> "orange" !in classes && "red" !in classes
    ensures "not-enough-samples" in classes <==> day.count < EnoughSamples
    ensures classes <= {"orange", "red", "ok", "not-enough-samples"}
    ensures unit == UnitFor(sli, targets)
    ensures aggregate == GetAggregate(day.aggregation, DayFigures(day))
    ensures aggregate.Ok? <==> Column(day.aggregation).Some?
    ensures aggregate.Ok? ==>
      var x := Pick(day, Column(day.aggregation).value);
      x - 0.005 < aggregate.value <= x + 0.005
  {
    classes := {};
    unit := "";
    if day.breaches != 0 {
      classes := classes + {"orange"};
    }
    for i := 0 to |targets|
      invariant unit == UnitFor(sli, targets[..i])
      invariant classes <= {"orange", "red"}
      invariant "orange" in classes <==> day.breaches != 0
      invariant "red" in classes <==> RedAmong(sli, day.avg, targets[..i])
    {
      RedAmongSnoc(sli, day.avg, targets, i);
      assert targets[..i + 1][..i] == targets[..i];
      var target := targets[i];
      if target.sliName == sli {
        unit := target.unit;
        if Given(target.to) && day.avg > target.to.value {
          classes := classes + {"red"};
        } else if Given(target.from) && day.avg < target.from.value {
          classes := classes + {"red"};
        }
      }
    }
    assert targets[..|targets|] == targets;
    assert "red" in classes <==> exists t :: t in targets && t.sliName == sli && Red(t, day.avg);
    if classes == {} {
      classes := classes + {"ok"};
    }
    if day.count < EnoughSamples {
      classes := classes + {"not-enough-samples"};
    }
    aggregate := GetAggregate(day.aggregation, DayFigures(day));
    if Column(day.aggregation).Some? {
      var c := Column(day.aggregation).value;
      assert Select(DayFigures(day), c) == Scalar(Some(Pick(day, c)));
      RoundedWithin(Pick(day, c), Pick(day, c), Pick(day, c));
    }
  }

  /** A day's figures, each a single number, as `get_aggregate` reads them for a cell. */
  function DayFigures(day: SliDay): Figures {
    Figures(Scalar(Some(day.avg)), Scalar(Some(day.max)), Scalar(Some(day.min)), Scalar(Some(day.sum)))
  }

  /** `int(x)`: truncation toward zero. */
  function Truncate(x: real): (r: int)
    ensures 0.0 <= x ==> r as real <= x < r as real + 1.0
    ensures x < 0.0 ==> r as real - 1.0 < x <= r as real
  {
    if x >= 0.0 then x.Floor else -((-x).Floor)
  }

  /** The 'requests' SLI's daily total: the per-second average over the sampled minutes. */
  function RequestsTotal(day: SliDay): int {
    Truncate(day.avg * day.count as real * 60.0)
  }

  // ---------------------------------------------------------------------------------------
  // SLO totals

  /** A day's figures by SLI, and an SLO's days (in the sorted order the report walks them). */
  type DayData = seq<(string, SliDay)>
  type Days = seq<(string, DayData)>

  datatype Tally = Breaches | Samples

  function Tallied(d: SliDay, tally: Tally): int {
    if tally.Breaches? then d.breaches else d.count
  }

  /** `by_sli[k] += n` on a defaultdict of ints. */
  function Bump<K(==)>(totals: seq<(K, int)>, k: K, n: int): seq<(K, int)> {
    Put(totals, k, GetOr(totals, k, 0) + n)
  }

  /** After `by_sli[k] += n`, k reads n more, every other key as before, and no key repeats. */
  lemma BumpMeaning<K>(d: seq<(K, int)>, k: K, n: int, j: K)
    ensures GetOr(Bump(d, k, n), j, 0) == GetOr(d, j, 0) + (if k == j then n else 0)
    ensures j in Keys(Bump(d, k, n)) <==> j in Keys(d) || j == k
    ensures DistinctKeys(d) ==> DistinctKeys(Bump(d, k, n))
  {
    var v := GetOr(d, k, 0) + n;
    assert Bump(d, k, n) == Put(d, k, v);
    PutMeaning(d, k, v, j);
    assert GetOr(Bump(d, k, n), j, 0) == Get(Put(d, k, v), j).GetOr(0);
    if DistinctKeys(d) {
      PutDistinct(d, k, v);
    }
  }

  /** A key of a dict is a key of all but its last entry, or the last entry's key. */
  lemma KeysSnoc<K, V>(d: seq<(K, V)>, j: K)
    requires |d| > 0
    ensures j in Keys(d) <==> j in Keys(d[..|d| - 1]) || Last(d).0 == j
  {
    if j in Keys(d) {
      var i :| 0 <= i < |d| && Keys(d)[i] == j;
      if i < |d| - 1 {
        assert Keys(d[..|d| - 1])[i] == j;
      }
    }
    if j in Keys(d[..|d| - 1]) {
      var i :| 0 <= i < |d| - 1 && Keys(d[..|d| - 1])[i] == j;
      assert Keys(d)[i] == j;
    }
    if Last(d).0 == j {
      assert Keys(d)[|d| - 1] == j;
    }
  }

  /** One day added into the per-SLI totals (`by_sli[sli] += ...` for each of its SLIs). */
  function AddDay<K(==)>(totals: seq<(K, int)>, data: seq<(K, SliDay)>, tally: Tally): seq<(K, int)>
    decreases |data|
  {
    if |data| == 0 then totals
    else
      Bump(AddDay(totals, data[..|data| - 1], tally), Last(data).0, Tallied(Last(data).1, tally))
  }

  /** The per-SLI totals over the days. */
  function Totals<D, K(==)>(days: seq<(D, seq<(K, SliDay)>)>, tally: Tally): seq<(K, int)>
    decreases |days|
  {
    if |days| == 0 then [] else AddDay(Totals(days[..|days| - 1], tally), Last(days).1, tally)
  }

  /** `breaches_by_sli` and `counts_by_sli`, built day by day. */
  method SloTotals<D, K(==)>(days: seq<(D, seq<(K, SliDay)>)>) returns (breaches: seq<(K, int)>, counts: seq<(K, int)>)
    ensures breaches == Totals(days, Breaches) && counts == Totals(days, Samples)
  {
    breaches, counts := [], [];
    for i := 0 to |days|
      invariant breaches == Totals(days[..i], Breaches) && counts == Totals(days[..i], Samples)
    {
      assert days[..i + 1][..i] == days[..i];
      breaches, counts := TallyDay(breaches, counts, days[i].1);
    }
    assert days[..|days|] == days;
  }

  /** One day's SLIs added into the running totals. */
  method TallyDay<K(==)>(breaches0: seq<(K, int)>, counts0: seq<(K, int)>, data: seq<(K, SliDay)>)
    returns (breaches: seq<(K, int)>, counts: seq<(K, int)>)
    ensures breaches == AddDay(breaches0, data, Breaches) && counts == AddDay(counts0, data, Samples)
  {
    breaches, counts := breaches0, counts0;
    for j := 0 to |data|
      invariant breaches == AddDay(breaches0, data[..j], Breaches)
      invariant counts == AddDay(counts0, data[..j], Samples)
    {
      assert data[..j + 1][..j] == data[..j];
      breaches := Bump(breaches, data[j].0, data[j].1.breaches);
      counts := Bump(counts, data[j].0, data[j].1.count);
    }
    assert data[..|data|] == data;
  }

  /** The sum of an SLI's figures in one day. */
  function DayFigure<K(==)>(data: seq<(K, SliDay)>, sli: K, tally: Tally): int
    decreases |data|
  {
    if |data| == 0 then 0
    else DayFigure(data[..|data| - 1], sli, tally) + (if Last(data).0 == sli then Tallied(Last(data).1, tally) else 0)
  }

  /** The sum of an SLI's figures over the days. */
  function SumFor<D, K(==)>(days: seq<(D, seq<(K, SliDay)>)>, sli: K, tally: Tally): int
    decreases |days|
  {
    if |days| == 0 then 0 else SumFor(days[..|days| - 1], sli, tally) + DayFigure(Last(days).1, sli, tally)
  }

  /** Whether an SLI has figures on some day. */
  predicate Reported<D, K(==)>(days: seq<(D, seq<(K, SliDay)>)>, sli: K) {
    exists i :: 0 <= i < |days| && sli in Keys(days[i].1)
  }

  lemma {:induction false} AddDayDistinct<K>(totals: seq<(K, int)>, data: seq<(K, SliDay)>, tally: Tally)
    requires DistinctKeys(totals)
    ensures DistinctKeys(AddDay(totals, data, tally))
    decreases |data|
  {
    if |data| > 0 {
      AddDayDistinct(totals, data[..|data| - 1], tally);
      BumpMeaning(AddDay(totals, data[..|data| - 1], tally), Last(data).0, Tallied(Last(data).1, tally), Last(data).0);
    }
  }

  lemma {:induction false} AddDayGet<K>(totals: seq<(K, int)>, data: seq<(K, SliDay)>, tally: Tally, sli: K)
    ensures GetOr(AddDay(totals, data, tally), sli, 0) == GetOr(totals, sli, 0) + DayFigure(data, sli, tally)
    decreases |data|
  {
    if |data| > 0 {
      AddDayGet(totals, data[..|data| - 1], tally, sli);
      BumpMeaning(AddDay(totals, data[..|data| - 1], tally), Last(data).0, Tallied(Last(data).1, tally), sli);
    }
  }

  lemma {:induction false} AddDayKeys<K>(totals: seq<(K, int)>, data: seq<(K, SliDay)>, tally: Tally, sli: K)
    ensures sli in Keys(AddDay(totals, data, tally)) <==> sli in Keys(totals) || sli in Keys(data)
    decreases |data|
  {
    if |data| > 0 {
      AddDayKeys(totals, data[..|data| - 1], tally, sli);
      BumpMeaning(AddDay(totals, data[..|data| - 1], tally), Last(data).0, Tallied(Last(data).1, tally), sli);
      KeysSnoc(data, sli);
    }
  }

  /**
   * An SLO's total for an SLI is the sum of its figures over all days, an SLI is totalled
   * exactly when it appears on some day, and each SLI is totalled once.
   */
  lemma {:induction false} TotalsMeaning<D, K>(days: seq<(D, seq<(K, SliDay)>)>, tally: Tally, sli: K)
    ensures DistinctKeys(Totals(days, tally))
    ensures GetOr(Totals(days, tally), sli, 0) == SumFor(days, sli, tally)
    ensures sli in Keys(Totals(days, tally)) <==> Reported(days, sli)
    decreases |days|
  {
    if |days| > 0 {
      var init := days[..|days| - 1];
      TotalsMeaning(init, tally, sli);
      AddDayDistinct(Totals(init, tally), Last(days).1, tally);
      AddDayGet(Totals(init, tally), Last(days).1, tally, sli);
      AddDayKeys(Totals(init, tally), Last(days).1, tally, sli);
      if Reported(days, sli) && !Reported(init, sli) {
        forall i | 0 <= i < |init|
          ensures sli !in Keys(days[i].1)
        {
          assert days[i] == init[i];
        }
        assert sli in Keys(days[|days| - 1].1);
      }
      if Reported(init, sli) {
        var i :| 0 <= i < |init| && sli in Keys(init[i].1);
        assert days[i] == init[i];
      }
    }
  }

  /** `max_or_zero`: the largest value, or 0 for none. */
  function MaxOrZero(values: seq<int>): (r: int)
    ensures |values| == 0 ==> r == 0
    ensures |values| > 0 ==> r in values
    ensures forall v :: v in values ==> v <= r
    decreases |values|
  {
    if |values| == 0 then 0
    else if |values| == 1 then values[0]
    else
      var m := MaxOrZero(values[1..]);
      assert forall v :: v in values ==> v == values[0] || v in values[1..];
      if values[0] >= m then values[0] else m
  }

  function Values<K, V>(d: seq<(K, V)>): (r: seq<V>)
    ensures |r| == |d| && forall i :: 0 <= i < |d| ==> r[i] == d[i].1
  {
    seq(|d|, i requires 0 <= i < |d| => d[i].1)
  }

  /** `slo['breaches']` or `slo['count']`: the largest per-SLI total. */
  function SloFigure<D, K(==)>(days: seq<(D, seq<(K, SliDay)>)>, tally: Tally): int {
    MaxOrZero(Values(Totals(days, tally)))
  }

  /**
   * The SLO's breaches (or samples) are the largest total of any one SLI: no SLI exceeds
   * them, and they are some SLI's total, or 0 when no SLI has figures.
   */
  lemma SloFigureMeaning<D, K>(days: seq<(D, seq<(K, SliDay)>)>, tally: Tally)
    ensures forall sli :: Reported(days, sli) ==> SumFor(days, sli, tally) <= SloFigure(days, tally)
    ensures (exists sli :: Reported(days, sli) && SloFigure(days, tally) == SumFor(days, sli, tally)) ||
            ((forall sli :: !Reported(days, sli)) && SloFigure(days, tally) == 0)
  {
    var t := Totals(days, tally);
    forall sli | Reported(days, sli)
      ensures SumFor(days, sli, tally) <= SloFigure(days, tally)
    {
      TotalsMeaning(days, tally, sli);
      assert (sli, Get(t, sli).value) in t;
      var i :| 0 <= i < |t| && t[i] == (sli, Get(t, sli).value);
      assert Values(t)[i] in Values(t);
    }
    if |t| > 0 {
      var m := SloFigure(days, tally);
      var i :| 0 <= i < |t| && Values(t)[i] == m;
      var sli := t[i].0;
      TotalsMeaning(days, tally, sli);
      assert sli in Keys(t);
      GetEntry(t, i);
    } else {
      forall sli ensures !Reported(days, sli) {
        TotalsMeaning(days, tally, sli);
      }
    }
  }

  // ---------------------------------------------------------------------------------------
  // Targets

  /** The figures `values_by_sli[sli]` collects: each day's figure of the SLI, in day order. */
  function ColumnOf(days: Days, sli: string, c: Col): seq<real>
    decreases |days|
  {
    if |days| == 0 then []
    else ColumnOf(days[..|days| - 1], sli, c) + DayColumn(Last(days).1, sli, c)
  }

  function DayColumn(data: DayData, sli: string, c: Col): (r: seq<real>)
    ensures |r| == 0 <==> sli !in Keys(data)
    decreases |data|
  {
    if |data| == 0 then []
    else
      assert Keys(data) == Keys(data[..|data| - 1]) + [Last(data).0];
      DayColumn(data[..|data| - 1], sli, c) + (if Last(data).0 == sli then [Pick(Last(data).1, c)] else [])
  }

  /** The figure `c` of a day. */
  function Pick(d: SliDay, c: Col): real {
    match c
    case Avg => d.avg
    case Max => d.max
    case Min => d.min
    case Sum => d.sum
  }

  function SliFigures(days: Days, sli: string): Figures {
    Figures(Series(ColumnOf(days, sli, Avg)), Series(ColumnOf(days, sli, Max)),
            Series(ColumnOf(days, sli, Min)), Series(ColumnOf(days, sli, Sum)))
  }

  /** An SLI's daily figures are empty exactly when it appears on no day. */
  lemma {:induction false} ColumnOfEmpty(days: Days, sli: string, c: Col)
    ensures |ColumnOf(days, sli, c)| == 0 <==> !Reported(days, sli)
    decreases |days|
  {
    if |days| > 0 {
      var init := days[..|days| - 1];
      ColumnOfEmpty(init, sli, c);
      if Reported(days, sli) && !Reported(init, sli) {
        forall i | 0 <= i < |init|
          ensures sli !in Keys(days[i].1)
        {
          assert days[i] == init[i];
        }
        assert sli in Keys(days[|days| - 1].1);
      }
      if Reported(init, sli) {
        var i :| 0 <= i < |init| && sli in Keys(init[i].1);
        assert days[i] == init[i];
      }
    }
  }

  /** `ok` for a target's value: false when the value breaks it; a missing value is ok. */
  function TargetOk(value: Option<real>, t: Target): (ok: bool)
    ensures value.None? ==> ok
  {
    !(value.Some? && Given(t.to) && value.value > t.to.value) &&
    !(value.Some? && Given(t.from) && value.value < t.from.value)
  }

  /** A target's verdict is the day cells' red rule applied to the target's value. */
  lemma TargetOkIsNotRed(value: real, t: Target)
    ensures TargetOk(Some(value), t) <==> !Red(t, value)
  {
  }

  /** A target's row in the SLO table: its unit, its value ('-' for none) and whether it holds. */
  datatype Verdict = Verdict(unit: string, value: Option<real>, ok: bool)

  /** The verdict as written: `get_aggregate` never returns None, so no data shows 0.00. */
  function TargetVerdictAsWritten(t: Target, days: Days): Result<Verdict, string> {
    match GetAggregate(t.aggregation, SliFigures(days, t.sliName))
    case Err(e) => Err(e)
    case Ok(v) => Ok(Verdict(t.unit, Some(v), TargetOk(Some(v), t)))
  }

  /** The verdict with a target without data shown as '-' and left ok. */
  function TargetVerdict(t: Target, days: Days): Result<Verdict, string> {
    match AggregateOrNone(t.aggregation, SliFigures(days, t.sliName))
    case Err(e) => Err(e)
    case Ok(v) => Ok(Verdict(t.unit, v, TargetOk(v, t)))
  }

  /**
   * A target is judged when its aggregation is known; it has a value exactly when its SLI has
   * data, and it holds exactly when it has none or the value does not break it.
   */
  lemma TargetVerdictMeaning(t: Target, days: Days)
    ensures TargetVerdict(t, days).Ok? <==> Column(t.aggregation).Some?
    ensures TargetVerdict(t, days).Ok? ==>
      && TargetVerdict(t, days).value.unit == t.unit
      && (TargetVerdict(t, days).value.value.None? <==> !Reported(days, t.sliName))
      && (TargetVerdict(t, days).value.ok <==>
            TargetVerdict(t, days).value.value.None? || !Red(t, TargetVerdict(t, days).value.value.value))
  {
    if Column(t.aggregation).Some? {
      var c := Column(t.aggregation).value;
      assert Select(SliFigures(days, t.sliName), c) == Series(ColumnOf(days, t.sliName, c));
      ColumnOfEmpty(days, t.sliName, c);
    }
  }

  /**
   * As written a judged target always shows a value, 0.00 when its SLI has no data; it holds
   * exactly when that value does not break it; with data it is judged as intended.
   */
  lemma TargetVerdictAsWrittenMeaning(t: Target, days: Days)
    ensures TargetVerdictAsWritten(t, days).Ok? <==> Column(t.aggregation).Some?
    ensures TargetVerdictAsWritten(t, days).Ok? ==>
      && TargetVerdictAsWritten(t, days).value.unit == t.unit
      && TargetVerdictAsWritten(t, days).value.value.Some?
      && (TargetVerdictAsWritten(t, days).value.ok <==> !Red(t, TargetVerdictAsWritten(t, days).value.value.value))
    ensures TargetVerdictAsWritten(t, days).Ok? && !Reported(days, t.sliName) ==>
      TargetVerdictAsWritten(t, days).value.value == Some(0.0)
    ensures Reported(days, t.sliName) ==> TargetVerdictAsWritten(t, days) == TargetVerdict(t, days)
  {
    if Column(t.aggregation).Some? {
      var c := Column(t.aggregation).value;
      assert Select(SliFigures(days, t.sliName), c) == Series(ColumnOf(days, t.sliName, c));
      ColumnOfEmpty(days, t.sliName, c);
    }
  }

  /** Which verdict the targets loop gives: the one written, or the one intended. */
  datatype Judging = AsWritten | Intended

  function Judge(judging: Judging, t: Target, days: Days): Result<Verdict, string> {
    match judging
    case AsWritten => TargetVerdictAsWritten(t, days)
    case Intended => TargetVerdict(t, days)
  }

  const LatencyTarget: Target := Target("latency", "ms", Some(99.0), None, "average")

  /**
   * With no data for its SLI, a target with a lower bound is shown as 0.00 and failed as
   * written, where '-' and ok are meant.
   */
  lemma NoDataVerdicts()
    ensures TargetVerdictAsWritten(LatencyTarget, []) == Ok(Verdict("ms", Some(0.0), false))
    ensures TargetVerdict(LatencyTarget, []) == Ok(Verdict("ms", None, true))
  {
    assert SliFigures([], "latency").avg == Series([]);
  }

  /** Each target's SLI with no samples at all (`not counts_by_sli.get(sli_name)`). */
  function NoData(targets: seq<Target>, counts: seq<(string, int)>): seq<string>
    decreases |targets|
  {
    if |targets| == 0 then []
    else
      var missing := GetOr(counts, Last(targets).sliName, 0) == 0;
      NoData(targets[..|targets| - 1], counts) + (if missing then [Last(targets).sliName] else [])
  }

  /** The SLO table: each target's verdict under its SLI's name, a later target replacing an earlier one. */
  function Verdicts(judging: Judging, targets: seq<Target>, days: Days): Result<seq<(string, Verdict)>, string>
    decreases |targets|
  {
    if |targets| == 0 then Ok([])
    else
      match Verdicts(judging, targets[..|targets| - 1], days)
      case Err(e) => Err(e)
      case Ok(table) =>
        match Judge(judging, Last(targets), days)
        case Err(e) => Err(e)
        case Ok(v) => Ok(Put(table, Last(targets).sliName, v))
  }

  lemma {:induction false} VerdictsFailurePersists(judging: Judging, targets: seq<Target>, days: Days, i: nat)
    requires i <= |targets| && Verdicts(judging, targets[..i], days).Err?
    ensures Verdicts(judging, targets, days) == Verdicts(judging, targets[..i], days)
    decreases |targets| - i
  {
    if i < |targets| {
      assert targets[..i + 1][..i] == targets[..i];
      VerdictsFailurePersists(judging, targets, days, i + 1);
    } else {
      assert targets[..i] == targets;
    }
  }

  /**
   * The targets loop: the SLIs without data and the verdict of every target. The report
   * runs it with `judging == AsWritten`.
   */
  method SloTargets(judging: Judging, targets: seq<Target>, days: Days, counts: seq<(string, int)>)
    returns (r: Result<(seq<string>, seq<(string, Verdict)>), string>)
    ensures Verdicts(judging, targets, days).Err? ==> r == Err(Verdicts(judging, targets, days).error)
    ensures Verdicts(judging, targets, days).Ok? ==> r == Ok((NoData(targets, counts), Verdicts(judging, targets, days).value))
  {
    var noData: seq<string> := [];
    var table: seq<(string, Verdict)> := [];
    for i := 0 to |targets|
      invariant noData == NoData(targets[..i], counts)
      invariant Verdicts(judging, targets[..i], days) == Ok(table)
    {
      assert targets[..i + 1][..i] == targets[..i];
      var target := targets[i];
      if GetOr(counts, target.sliName, 0) == 0 {
        noData := noData + [target.sliName];
      }
      var verdict := Judge(judging, target, days);
      if verdict.Err? {
        VerdictsFailurePersists(judging, targets, days, i + 1);
        return Err(verdict.error);
      }
      table := Put(table, target.sliName, verdict.value);
    }
    assert targets[..|targets|] == targets;
    return Ok((noData, table));
  }

  /**
   * An SLI is listed without data exactly when one of its targets' SLIs has no samples; the
   * table holds each targeted SLI once, with the verdict of its last target.
   */
  lemma {:induction false} SloTargetsMeaning(judging: Judging, targets: seq<Target>, days: Days, counts: seq<(string, int)>, sli: string)
    ensures sli in NoData(targets, counts) <==>
      GetOr(counts, sli, 0) == 0 && exists t :: t in targets && t.sliName == sli
    ensures Verdicts(judging, targets, days).Ok? ==>
      && DistinctKeys(Verdicts(judging, targets, days).value)
      && (sli in Keys(Verdicts(judging, targets, days).value) <==> exists t :: t in targets && t.sliName == sli)
    decreases |targets|
  {
    if |targets| > 0 {
      var init := targets[..|targets| - 1];
      SloTargetsMeaning(judging, init, days, counts, sli);
      assert targets == init + [Last(targets)];
      if Verdicts(judging, targets, days).Ok? {
        var table := Verdicts(judging, init, days).value;
        var v := Judge(judging, Last(targets), days).value;
        PutMeaning(table, Last(targets).sliName, v, sli);
        PutDistinct(table, Last(targets).sliName, v);
      }
    }
  }

  // ---------------------------------------------------------------------------------------
  // Report period

  /**
   * The report's period: the earliest and latest day of the first SLO with days, cut to the
   * date; with no such SLO, or an empty date, the report is aborted.
   */
  function ReportPeriod(slos: seq<seq<string>>): Result<(string, string), string>
    decreases |slos|
  {
    if |slos| == 0 then Err("RuntimeError")
    else if |slos[0]| > 0 then
      var from := Prefix(MinStr(slos[0]), 10);
      var to := Prefix(MaxStr(slos[0]), 10);
      if |from| == 0 || |to| == 0 then Err("RuntimeError") else Ok((from, to))
    else ReportPeriod(slos[1..])
  }

  /**
   * `from` and `to` are the period of the i-th SLO, the first with days: non-empty dates of
   * at most ten characters, in order, bracketing each of its days.
   */
  predicate PeriodOf(slos: seq<seq<string>>, i: int, from: string, to: string)
    requires 0 <= i < |slos|
  {
    && |slos[i]| > 0
    && (forall j :: 0 <= j < i ==> |slos[j]| == 0)
    && 0 < |from| <= 10 && 0 < |to| <= 10
    && StrLe(from, to)
    && forall k :: k in slos[i] ==> StrLe(from, Prefix(k, 10)) && StrLe(Prefix(k, 10), to)
  }

  /** Cutting two ordered strings to the same length keeps their order. */
  lemma {:induction false} PrefixMonotone(a: string, b: string, n: nat)
    requires StrLe(a, b)
    ensures StrLe(Prefix(a, n), Prefix(b, n))
    decreases n
  {
    if n > 0 && |a| > 0 && a[0] == b[0] {
      PrefixMonotone(a[1..], b[1..], n - 1);
      assert Prefix(a, n)[1..] == Prefix(a[1..], n - 1);
      assert Prefix(b, n)[1..] == Prefix(b[1..], n - 1);
    }
  }

  /**
   * The period is taken from the first SLO that has days: it starts no later than it ends,
   * both are dates of at most ten characters, and every day of that SLO falls within it.
   */
  lemma {:induction false} ReportPeriodMeaning(slos: seq<seq<string>>)
    ensures ReportPeriod(slos).Ok? ==>
      exists i :: 0 <= i < |slos| && PeriodOf(slos, i, ReportPeriod(slos).value.0, ReportPeriod(slos).value.1)
    ensures (forall i :: 0 <= i < |slos| ==> |slos[i]| == 0) ==> ReportPeriod(slos).Err?
    decreases |slos|
  {
    if |slos| > 0 {
      if |slos[0]| > 0 {
        var lo, hi := MinStr(slos[0]), MaxStr(slos[0]);
        assert StrLe(lo, hi);
        PrefixMonotone(lo, hi, 10);
        forall k | k in slos[0]
          ensures StrLe(Prefix(lo, 10), Prefix(k, 10)) && StrLe(Prefix(k, 10), Prefix(hi, 10))
        {
          PrefixMonotone(lo, k, 10);
          PrefixMonotone(k, hi, 10);
        }
        if ReportPeriod(slos).Ok? {
          assert PeriodOf(slos, 0, Prefix(lo, 10), Prefix(hi, 10));
        }
      } else {
        ReportPeriodMeaning(slos[1..]);
        if ReportPeriod(slos).Ok? {
          var (from, to) := ReportPeriod(slos[1..]).value;
          var i :| 0 <= i < |slos[1..]| && PeriodOf(slos[1..], i, from, to);
          assert slos[i + 1] == slos[1..][i];
          assert forall j :: 0 <= j < i + 1 ==> |slos[j]| == 0 by {
            forall j | 0 < j < i + 1 ensures |slos[j]| == 0 {
              assert slos[j] == slos[1..][j - 1];
            }
          }
          assert ReportPeriod(slos) == ReportPeriod(slos[1..]);
          assert PeriodOf(slos, i + 1, from, to);
        }
        if forall i :: 0 <= i < |slos| ==> |slos[i]| == 0 {
          assert forall i :: 0 <= i < |slos[1..]| ==> |slos[1..][i]| == 0 by {
            forall i | 0 <= i < |slos[1..]| ensures |slos[1..][i]| == 0 {
              assert slos[1..][i] == slos[i + 1];
            }
          }
        }
      }
    }
  }

  // ---------------------------------------------------------------------------------------
  // Retries

  const MaxRetries: nat := 10

  /**
   * `call_and_retry`: the call is repeated after each failure, at most `MaxRetries` times,
   * and the first success is returned. `attempt(i)` is the outcome of the i-th call, None for
   * an exception; the sleeps are left out.
   */
  method CallAndRetry<T>(attempt: nat -> Option<T>) returns (r: Option<T>, calls: nat)
    ensures 1 <= calls <= MaxRetries + 1
    ensures forall i :: 0 <= i < calls - 1 ==> attempt(i).None?
    ensures r == attempt(calls - 1)
    ensures r.None? ==> calls == MaxRetries + 1
  {
    var count: nat := 0;
    while true
      invariant count <= MaxRetries
      invariant forall i :: 0 <= i < count ==> attempt(i).None?
      decreases MaxRetries - count
    {
      var outcome := attempt(count);
      if outcome.Some? {
        return outcome, count + 1;
      }
      if count < MaxRetries {
        count := count + 1;
        continue;
      }
      return None, count + 1;
    }
  }

  /** A call that succeeds within the allowed attempts is answered; otherwise the error surfaces. */
  lemma RetrySucceeds<T>(attempt: nat -> Option<T>, r: Option<T>, calls: nat)
    requires 1 <= calls <= MaxRetries + 1 && r == attempt(calls - 1)
    requires forall i :: 0 <= i < calls - 1 ==> attempt(i).None?
    requires r.None? ==> calls == MaxRetries + 1
    ensures r.Some? <==> exists i :: 0 <= i <= MaxRetries && attempt(i).Some?
  {
    if r.None? {
      assert forall i :: 0 <= i <= MaxRetries ==> attempt(i).None? by {
        forall i | 0 <= i <= MaxRetries ensures attempt(i).None? {
          if i < calls - 1 {
          } else {
            assert i == calls - 1;
          }
        }
      }
    }
  }
}
