/**
 * The ZMON/KairosDB side of an SLI source: the query sent to KairosDB, the bucketing of the
 * returned series into whole minutes and (entity, key prefix) groups, the per-minute
 * aggregation, and the clamping of tiny values before they are stored.
 *
 * A returned series is one KairosDB result: its `entity` and `key` group tags and its
 * `(timestamp in ms, value)` points. Glob matching (`fnmatch`) is a parameter.
 */
module Kairos {
  import opened Wrappers
  import opened PyStr
  import opened OrderedDict
  import opened PyValue

  /** The aggregation types a ZMON source accepts. */
  const AggregationTypes: seq<string> :=
    ["average", "weighted", "sum", "min", "max", "minimum", "maximum"]

  /** expm1(1e-10): the smallest magnitude a non-zero value is stored with. */
  const MinVal: real := 0.0000000001

  /** Default of KAIROSDB_QUERY_LIMIT. */
  const QueryLimit: int := 10000

  /** `fnmatch.fnmatch(name, pattern)` */
  type Matcher = (string, string) -> bool

  /** The fields of a ZMON source the query reads. */
  datatype ZmonSource = ZmonSource(
    checkId: int,
    keys: seq<string>,
    aggType: string,
    weightKeys: seq<string>,
    tags: Dict,
    excludeKeys: seq<string>)

  datatype Series = Series(entity: string, key: string, values: seq<(int, real)>)

  /** What one group collected in one minute: the last value and the last weight seen. */
  datatype Slot = Slot(value: Option<real>, weight: Option<real>)

  type GroupKey = (string, string)

  /** The groups of one minute, in insertion order. */
  type Groups = seq<(GroupKey, Slot)>

  /** The minutes of a response, in insertion order. */
  type Buckets = seq<(int, Groups)>

  // ---------------------------------------------------------------------------------------
  // Pattern matching

  /** `_key_matches(key, patterns)` */
  predicate KeyMatches(fnmatch: Matcher, key: string, patterns: seq<string>) {
    exists i :: 0 <= i < |patterns| && fnmatch(key, patterns[i])
  }

  /** The loop of `_key_matches`: the first matching pattern answers. */
  method KeyMatchesAny(fnmatch: Matcher, key: string, patterns: seq<string>) returns (b: bool)
    ensures b <==> KeyMatches(fnmatch, key, patterns)
  {
    for i := 0 to |patterns|
      invariant forall k :: 0 <= k < i ==> !fnmatch(key, patterns[k])
    {
      if fnmatch(key, patterns[i]) {
        return true;
      }
    }
    return false;
  }

  // ---------------------------------------------------------------------------------------
  // The query

  datatype KairosQuery = KairosQuery(
    startRelative: int,
    metric: string,
    tags: Dict,
    limit: int,
    endRelative: Option<int>)

  const MetricPrefix: string := "zmon.check."

  function KeyStrings(keys: seq<string>): (r: seq<Value>)
    ensures |r| == |keys|
    ensures forall i :: 0 <= i < |keys| ==> r[i] == Str(keys[i])
  {
    seq(|keys|, i requires 0 <= i < |keys| => Str(keys[i]))
  }

  /** The query body: tags select the keys and weight keys, the source's own tags override. */
  function BuildQuery(src: ZmonSource, start: int, end: Option<int>): KairosQuery {
    var base: Dict := [("key", Array(KeyStrings(src.keys + src.weightKeys)))];
    KairosQuery(
      start,
      MetricPrefix + IntToString(src.checkId),
      if |src.tags| > 0 then Update(base, src.tags) else base,
      QueryLimit,
      if end.Some? && end.value != 0 then end else None)
  }

  /**
   * The query names the check's metric (and the check id reads back from it), asks for the
   * keys and weight keys unless the source's tags name `key` themselves, carries every other
   * source tag, and has an end only when a non-zero end was given.
   */
  lemma BuildQueryMeaning(src: ZmonSource, start: int, end: Option<int>, tag: string)
    requires DistinctKeys(src.tags)
    ensures var q := BuildQuery(src, start, end);
      && StartsWith(q.metric, MetricPrefix)
      && ParseInt(q.metric[|MetricPrefix|..]) == Some(src.checkId)
      && q.startRelative == start
      && q.limit == QueryLimit
      && Get(q.tags, tag) ==
         (if tag in Keys(src.tags) then Get(src.tags, tag)
          else if tag == "key" then Some(Array(KeyStrings(src.keys + src.weightKeys)))
          else None)
      && (q.endRelative.Some? <==> end.Some? && end.value != 0)
  {
    var q := BuildQuery(src, start, end);
    assert q.metric[|MetricPrefix|..] == IntToString(src.checkId);
    ParseIntToString(src.checkId);
    var base: Dict := [("key", Array(KeyStrings(src.keys + src.weightKeys)))];
    if |src.tags| > 0 {
      GetUpdate(base, src.tags, tag);
    }
  }

  // ---------------------------------------------------------------------------------------
  // Bucketing

  /** `(ts // 60000) * 60`: epoch seconds of the whole minute holding a millisecond stamp. */
  function MinuteOf(ts: int): int {
    (ts / 60000) * 60
  }

  /** A point falls in the minute starting at MinuteOf, which is a whole minute. */
  lemma MinuteOfBounds(ts: int)
    ensures MinuteOf(ts) % 60 == 0
    ensures MinuteOf(ts) * 1000 <= ts < MinuteOf(ts) * 1000 + 60000
    ensures MinuteOf(MinuteOf(ts) * 1000) == MinuteOf(ts)
  {
    var q := ts / 60000;
    assert MinuteOf(ts) * 1000 == q * 60000;
    assert MinuteOf(ts) * 1000 / 60000 == q;
  }

  /** `".".join(key.split(".")[:-1])`: the key without its last dotted segment. */
  function KeyPrefix(key: string): string {
    var parts := Split(key, '.');
    Join(parts[..|parts| - 1], ".")
  }

  /** The key prefix and the last segment give back the key; a key without a dot has none. */
  lemma KeyPrefixMeaning(key: string)
    ensures '.' !in key ==> KeyPrefix(key) == ""
    ensures '.' in key ==>
      KeyPrefix(key) + "." + Last(Split(key, '.')) == key && '.' !in Last(Split(key, '.'))
  {
    if '.' !in key {
      SplitWithout(key, '.');
    } else {
      SplitWith(key, '.');
      JoinSnoc(Split(key, '.'), ".");
      JoinSplit(key, '.');
      SplitPiecesFree(key, '.');
    }
  }

  function GroupOf(s: Series): GroupKey {
    (s.entity, KeyPrefix(s.key))
  }

  /** Whether a series' points land in the weight slot rather than the value slot. */
  predicate IsWeight(src: ZmonSource, fnmatch: Matcher, key: string) {
    src.aggType == "weighted" && KeyMatches(fnmatch, key, src.weightKeys)
  }

  /** Whether a series takes part: it has points and its key is not excluded. */
  predicate Counted(src: ZmonSource, fnmatch: Matcher, s: Series) {
    |s.values| > 0 && !KeyMatches(fnmatch, s.key, src.excludeKeys)
  }

  function Write(slot: Slot, isWeight: bool, v: real): Slot {
    if isWeight then slot.(weight := Some(v)) else slot.(value := Some(v))
  }

  /** `res[minute][g][slot] = value`, creating the group when it is new. */
  function Place(groups: Groups, g: GroupKey, isWeight: bool, v: real): Groups {
    Put(groups, g, Write(GetOr(groups, g, Slot(None, None)), isWeight, v))
  }

  predicate AllValued(groups: Groups) {
    forall e :: e in groups ==> e.1.value.Some?
  }

  lemma PlaceValued(groups: Groups, g: GroupKey, v: real)
    requires AllValued(groups)
    ensures AllValued(Place(groups, g, false, v))
  {
    var slot := Write(GetOr(groups, g, Slot(None, None)), false, v);
    PutEntries(groups, g, slot);
  }

  /** One point of a series: its minute's groups get the point's value or weight. */
  function PointStep(src: ZmonSource, fnmatch: Matcher, b: Buckets, s: Series, p: (int, real)): Buckets {
    var m := MinuteOf(p.0);
    Put(b, m, Place(GetOr(b, m, []), GroupOf(s), IsWeight(src, fnmatch, s.key), p.1))
  }

  function AddPoints(src: ZmonSource, fnmatch: Matcher, b: Buckets, s: Series, pts: seq<(int, real)>): Buckets
    decreases |pts|
  {
    if |pts| == 0 then b
    else PointStep(src, fnmatch, AddPoints(src, fnmatch, b, s, pts[..|pts| - 1]), s, Last(pts))
  }

  /** The buckets of `_query_kairosdb` after the first `|rs|` result series. */
  function BucketSeries(src: ZmonSource, fnmatch: Matcher, rs: seq<Series>): Buckets
    decreases |rs|
  {
    if |rs| == 0 then []
    else
      var b := BucketSeries(src, fnmatch, rs[..|rs| - 1]);
      var s := Last(rs);
      if Counted(src, fnmatch, s) then AddPoints(src, fnmatch, b, s, s.values) else b
  }

  /** The bucketing loops of `_query_kairosdb`. */
  method Bucket(src: ZmonSource, fnmatch: Matcher, rs: seq<Series>) returns (res: Buckets)
    ensures res == BucketSeries(src, fnmatch, rs)
  {
    res := [];
    var i := 0;
    while i < |rs|
      invariant 0 <= i <= |rs|
      invariant res == BucketSeries(src, fnmatch, rs[..i])
    {
      var s := rs[i];
      assert rs[..i + 1][..i] == rs[..i];
      if |s.values| > 0 {
        var exclude := KeyMatchesAny(fnmatch, s.key, src.excludeKeys);
        if !exclude {
          var isWeight := false;
          if src.aggType == "weighted" {
            isWeight := KeyMatchesAny(fnmatch, s.key, src.weightKeys);
          }
          res := AddSeries(src, fnmatch, res, s, isWeight);
        }
      }
      i := i + 1;
    }
    assert rs[..i] == rs;
  }

  /** The inner loop of the bucketing: every point of one series goes to its minute. */
  method AddSeries(src: ZmonSource, fnmatch: Matcher, b: Buckets, s: Series, isWeight: bool)
    returns (res: Buckets)
    requires isWeight == IsWeight(src, fnmatch, s.key)
    ensures res == AddPoints(src, fnmatch, b, s, s.values)
  {
    res := b;
    for j := 0 to |s.values|
      invariant res == AddPoints(src, fnmatch, b, s, s.values[..j])
    {
      var (ts, value) := s.values[j];
      var minute := MinuteOf(ts);
      var groups := GetOr(res, minute, []);
      res := Put(res, minute, Place(groups, GroupOf(s), isWeight, value));
      assert s.values[..j + 1][..j] == s.values[..j];
    }
    assert s.values[..|s.values|] == s.values;
  }

  /** Group g of minute m exists in the buckets. */
  predicate InBuckets(b: Buckets, m: int, g: GroupKey) {
    g in Keys(GetOr(b, m, []))
  }

  predicate HitsMinute(s: Series, m: int) {
    exists j :: 0 <= j < |s.values| && MinuteOf(s.values[j].0) == m
  }

  /** A series feeds group g of minute m. */
  predicate Feeds(src: ZmonSource, fnmatch: Matcher, s: Series, m: int, g: GroupKey) {
    Counted(src, fnmatch, s) && GroupOf(s) == g && HitsMinute(s, m)
  }

  lemma PointStepGroups(src: ZmonSource, fnmatch: Matcher, b: Buckets, s: Series, p: (int, real), m: int, g: GroupKey)
    ensures InBuckets(PointStep(src, fnmatch, b, s, p), m, g) <==>
      InBuckets(b, m, g) || (m == MinuteOf(p.0) && g == GroupOf(s))
  {
    var mm := MinuteOf(p.0);
    var groups := GetOr(b, mm, []);
    var slot := Write(GetOr(groups, GroupOf(s), Slot(None, None)), IsWeight(src, fnmatch, s.key), p.1);
    PutMeaning(b, mm, Place(groups, GroupOf(s), IsWeight(src, fnmatch, s.key), p.1), m);
    PutMeaning(groups, GroupOf(s), slot, g);
  }

  lemma {:induction false} AddPointsGroups(src: ZmonSource, fnmatch: Matcher, b: Buckets, s: Series,
                                           pts: seq<(int, real)>, m: int, g: GroupKey)
    ensures InBuckets(AddPoints(src, fnmatch, b, s, pts), m, g) <==>
      InBuckets(b, m, g) ||
      (g == GroupOf(s) && exists j :: 0 <= j < |pts| && MinuteOf(pts[j].0) == m)
    decreases |pts|
  {
    if |pts| > 0 {
      var init := pts[..|pts| - 1];
      AddPointsGroups(src, fnmatch, b, s, init, m, g);
      PointStepGroups(src, fnmatch, AddPoints(src, fnmatch, b, s, init), s, Last(pts), m, g);
      if g == GroupOf(s) && exists j :: 0 <= j < |pts| && MinuteOf(pts[j].0) == m {
        var j :| 0 <= j < |pts| && MinuteOf(pts[j].0) == m;
        if j < |pts| - 1 {
          assert init[j] == pts[j];
        }
      }
      if g == GroupOf(s) && exists j :: 0 <= j < |init| && MinuteOf(init[j].0) == m {
        var j :| 0 <= j < |init| && MinuteOf(init[j].0) == m;
        assert pts[j] == init[j];
      }
    }
  }

  /** A minute's group exists exactly when some counted series with that group has a point in it. */
  lemma {:induction false} BucketsHoldFedGroups(src: ZmonSource, fnmatch: Matcher, rs: seq<Series>, m: int, g: GroupKey)
    ensures InBuckets(BucketSeries(src, fnmatch, rs), m, g) <==>
      exists i :: 0 <= i < |rs| && Feeds(src, fnmatch, rs[i], m, g)
    decreases |rs|
  {
    if |rs| > 0 {
      var init := rs[..|rs| - 1];
      var s := Last(rs);
      BucketsHoldFedGroups(src, fnmatch, init, m, g);
      if Counted(src, fnmatch, s) {
        AddPointsGroups(src, fnmatch, BucketSeries(src, fnmatch, init), s, s.values, m, g);
      }
      if exists i :: 0 <= i < |rs| && Feeds(src, fnmatch, rs[i], m, g) {
        var i :| 0 <= i < |rs| && Feeds(src, fnmatch, rs[i], m, g);
        if i < |rs| - 1 {
          assert init[i] == rs[i];
        }
      }
      if exists i :: 0 <= i < |init| && Feeds(src, fnmatch, init[i], m, g) {
        var i :| 0 <= i < |init| && Feeds(src, fnmatch, init[i], m, g);
        assert rs[i] == init[i];
      }
    }
  }

  /** `res[m][g]`, or an empty slot when the minute or the group is not there. */
  function SlotAt(b: Buckets, m: int, g: GroupKey): Slot {
    GetOr(GetOr(b, m, []), g, Slot(None, None))
  }

  /** The value of the last point of `pts` that falls in minute m. */
  function LastIn(pts: seq<(int, real)>, m: int): Option<real>
    decreases |pts|
  {
    if |pts| == 0 then None
    else if MinuteOf(Last(pts).0) == m then Some(Last(pts).1)
    else LastIn(pts[..|pts| - 1], m)
  }

  /**
   * What the weight slot (`weight`) or the value slot (`!weight`) of group g in minute m
   * ends up holding: the last point in m of the last counted series of g whose key sends it
   * to that slot and that has a point in m.
   */
  function SlotFrom(src: ZmonSource, fnmatch: Matcher, rs: seq<Series>, m: int, g: GroupKey, weight: bool): Option<real>
    decreases |rs|
  {
    if |rs| == 0 then None
    else
      var s := Last(rs);
      if Counted(src, fnmatch, s) && GroupOf(s) == g && IsWeight(src, fnmatch, s.key) == weight && LastIn(s.values, m).Some?
      then LastIn(s.values, m)
      else SlotFrom(src, fnmatch, rs[..|rs| - 1], m, g, weight)
  }

  lemma PointStepSlot(src: ZmonSource, fnmatch: Matcher, b: Buckets, s: Series, p: (int, real), m: int, g: GroupKey)
    ensures SlotAt(PointStep(src, fnmatch, b, s, p), m, g) ==
      if m == MinuteOf(p.0) && g == GroupOf(s) then Write(SlotAt(b, m, g), IsWeight(src, fnmatch, s.key), p.1)
      else SlotAt(b, m, g)
  {
    var mm := MinuteOf(p.0);
    var groups := GetOr(b, mm, []);
    var slot := Write(GetOr(groups, GroupOf(s), Slot(None, None)), IsWeight(src, fnmatch, s.key), p.1);
    PutMeaning(b, mm, Place(groups, GroupOf(s), IsWeight(src, fnmatch, s.key), p.1), m);
    PutMeaning(groups, GroupOf(s), slot, g);
  }

  lemma {:induction false} AddPointsSlot(src: ZmonSource, fnmatch: Matcher, b: Buckets, s: Series,
                                         pts: seq<(int, real)>, m: int, g: GroupKey)
    ensures SlotAt(AddPoints(src, fnmatch, b, s, pts), m, g) ==
      if g == GroupOf(s) && LastIn(pts, m).Some? then Write(SlotAt(b, m, g), IsWeight(src, fnmatch, s.key), LastIn(pts, m).value)
      else SlotAt(b, m, g)
    decreases |pts|
  {
    if |pts| > 0 {
      AddPointsSlot(src, fnmatch, b, s, pts[..|pts| - 1], m, g);
      PointStepSlot(src, fnmatch, AddPoints(src, fnmatch, b, s, pts[..|pts| - 1]), s, Last(pts), m, g);
    }
  }

  /**
   * The slots of the buckets: in minute m, group g's value and weight are each the last point
   * in m of the last counted series of g whose key sends it to that slot, and empty when no
   * such series has a point in m.
   */
  lemma {:induction false} BucketsSlotMeaning(src: ZmonSource, fnmatch: Matcher, rs: seq<Series>, m: int, g: GroupKey)
    ensures SlotAt(BucketSeries(src, fnmatch, rs), m, g) ==
      Slot(SlotFrom(src, fnmatch, rs, m, g, false), SlotFrom(src, fnmatch, rs, m, g, true))
    decreases |rs|
  {
    if |rs| > 0 {
      var init := rs[..|rs| - 1];
      BucketsSlotMeaning(src, fnmatch, init, m, g);
      var s := Last(rs);
      if Counted(src, fnmatch, s) {
        AddPointsSlot(src, fnmatch, BucketSeries(src, fnmatch, init), s, s.values, m, g);
      }
    }
  }

  /** What every step of the bucketing keeps: minutes are distinct and hold at least one group. */
  predicate WellFormedBuckets(b: Buckets) {
    DistinctKeys(b) && forall m :: m in Keys(b) ==> |GetOr(b, m, [])| > 0
  }

  lemma PointStepWellFormed(src: ZmonSource, fnmatch: Matcher, b: Buckets, s: Series, p: (int, real))
    requires WellFormedBuckets(b)
    ensures WellFormedBuckets(PointStep(src, fnmatch, b, s, p))
  {
    var mm := MinuteOf(p.0);
    var gs := Place(GetOr(b, mm, []), GroupOf(s), IsWeight(src, fnmatch, s.key), p.1);
    PutDistinct(b, mm, gs);
    forall m | m in Keys(PointStep(src, fnmatch, b, s, p))
      ensures |GetOr(PointStep(src, fnmatch, b, s, p), m, [])| > 0
    {
      PutMeaning(b, mm, gs, m);
    }
  }

  lemma {:induction false} AddPointsWellFormed(src: ZmonSource, fnmatch: Matcher, b: Buckets, s: Series, pts: seq<(int, real)>)
    requires WellFormedBuckets(b)
    ensures WellFormedBuckets(AddPoints(src, fnmatch, b, s, pts))
    decreases |pts|
  {
    if |pts| > 0 {
      AddPointsWellFormed(src, fnmatch, b, s, pts[..|pts| - 1]);
      PointStepWellFormed(src, fnmatch, AddPoints(src, fnmatch, b, s, pts[..|pts| - 1]), s, Last(pts));
    }
  }

  lemma {:induction false} BucketsWellFormed(src: ZmonSource, fnmatch: Matcher, rs: seq<Series>)
    ensures WellFormedBuckets(BucketSeries(src, fnmatch, rs))
    decreases |rs|
  {
    if |rs| > 0 {
      var init := rs[..|rs| - 1];
      BucketsWellFormed(src, fnmatch, init);
      var s := Last(rs);
      if Counted(src, fnmatch, s) {
        AddPointsWellFormed(src, fnmatch, BucketSeries(src, fnmatch, init), s, s.values);
      }
    }
  }

  /** A minute is bucketed exactly when some counted series has a point in it. */
  lemma BucketMinutes(src: ZmonSource, fnmatch: Matcher, rs: seq<Series>, m: int)
    ensures m in Keys(BucketSeries(src, fnmatch, rs)) <==>
      exists i :: 0 <= i < |rs| && Counted(src, fnmatch, rs[i]) && HitsMinute(rs[i], m)
  {
    var b := BucketSeries(src, fnmatch, rs);
    if m in Keys(b) {
      BucketsWellFormed(src, fnmatch, rs);
      var gs: Groups := GetOr(b, m, []);
      var g := gs[0].0;
      assert Keys(gs)[0] == g;
      BucketsHoldFedGroups(src, fnmatch, rs, m, g);
    }
    if exists i :: 0 <= i < |rs| && Counted(src, fnmatch, rs[i]) && HitsMinute(rs[i], m) {
      var i :| 0 <= i < |rs| && Counted(src, fnmatch, rs[i]) && HitsMinute(rs[i], m);
      BucketsHoldFedGroups(src, fnmatch, rs, m, GroupOf(rs[i]));
    }
  }

  predicate BucketsValued(b: Buckets) {
    forall e :: e in b ==> AllValued(e.1)
  }

  lemma PointStepValued(src: ZmonSource, fnmatch: Matcher, b: Buckets, s: Series, p: (int, real))
    requires src.aggType != "weighted"
    requires BucketsValued(b)
    ensures BucketsValued(PointStep(src, fnmatch, b, s, p))
  {
    var mm := MinuteOf(p.0);
    var groups: Groups := GetOr(b, mm, []);
    assert AllValued(groups) by {
      if Get(b, mm).Some? {
        assert (mm, groups) in b;
      }
    }
    PlaceValued(groups, GroupOf(s), p.1);
    PutEntries(b, mm, Place(groups, GroupOf(s), false, p.1));
  }

  lemma {:induction false} AddPointsValued(src: ZmonSource, fnmatch: Matcher, b: Buckets, s: Series, pts: seq<(int, real)>)
    requires src.aggType != "weighted"
    requires BucketsValued(b)
    ensures BucketsValued(AddPoints(src, fnmatch, b, s, pts))
    decreases |pts|
  {
    if |pts| > 0 {
      AddPointsValued(src, fnmatch, b, s, pts[..|pts| - 1]);
      PointStepValued(src, fnmatch, AddPoints(src, fnmatch, b, s, pts[..|pts| - 1]), s, Last(pts));
    }
  }

  /** Unless the aggregation is weighted, every group of every minute carries a value. */
  lemma {:induction false} BucketSeriesValued(src: ZmonSource, fnmatch: Matcher, rs: seq<Series>)
    requires src.aggType != "weighted"
    ensures BucketsValued(BucketSeries(src, fnmatch, rs))
    decreases |rs|
  {
    if |rs| > 0 {
      var init := rs[..|rs| - 1];
      BucketSeriesValued(src, fnmatch, init);
      var s := Last(rs);
      if Counted(src, fnmatch, s) {
        AddPointsValued(src, fnmatch, BucketSeries(src, fnmatch, init), s, s.values);
      }
    }
  }

  // ---------------------------------------------------------------------------------------
  // Aggregation

  /** Aggregations that read `entry["value"]` of every group. */
  predicate ReadsEveryValue(kind: string) {
    kind in ["average", "sum", "min", "max", "minimum", "maximum"]
  }

  /** Aggregations that fail on a minute without groups (division by zero, min/max of []). */
  predicate NeedsGroups(kind: string) {
    kind in ["average", "min", "max", "minimum", "maximum"]
  }

  /** What the aggregation of one minute needs to run without an exception. */
  predicate Aggregable(kind: string, groups: Groups) {
    (ReadsEveryValue(kind) ==> AllValued(groups)) && (NeedsGroups(kind) ==> |groups| > 0)
  }

  /** `entry.get("weight", 1)` */
  function WeightOf(slot: Slot): real {
    slot.weight.GetOr(1.0)
  }

  /** `total_weight` of the weighted aggregation: the weights of the groups with a value. */
  function TotalWeight(groups: Groups): real
    decreases |groups|
  {
    if |groups| == 0 then 0.0
    else
      var slot := Last(groups).1;
      TotalWeight(groups[..|groups| - 1]) + (if slot.value.Some? then WeightOf(slot) else 0.0)
  }

  /** `total_value` of the weighted aggregation: each value times its weight. */
  function TotalWeightedValue(groups: Groups): real
    decreases |groups|
  {
    if |groups| == 0 then 0.0
    else
      var slot := Last(groups).1;
      TotalWeightedValue(groups[..|groups| - 1])
        + (if slot.value.Some? then slot.value.value * WeightOf(slot) else 0.0)
  }

  /** `[entry["value"] for g, entry in values.items()]` */
  function ValuesOf(groups: Groups): (r: seq<real>)
    requires AllValued(groups)
    ensures |r| == |groups|
    ensures forall i :: 0 <= i < |groups| ==> r[i] == groups[i].1.value.value
  {
    seq(|groups|, i requires 0 <= i < |groups| && AllValued(groups) => groups[i].1.value.value)
  }

  function SumOf(xs: seq<real>): real
    decreases |xs|
  {
    if |xs| == 0 then 0.0 else SumOf(xs[..|xs| - 1]) + Last(xs)
  }

  /** `min(xs)` */
  function MinOf(xs: seq<real>): (r: real)
    requires |xs| > 0
    ensures r in xs
    ensures forall i :: 0 <= i < |xs| ==> r <= xs[i]
    decreases |xs|
  {
    if |xs| == 1 then xs[0]
    else
      var m := MinOf(xs[1..]);
      assert forall i :: 1 <= i < |xs| ==> xs[i] == xs[1..][i - 1];
      if xs[0] <= m then xs[0] else m
  }

  /** `max(xs)` */
  function MaxOf(xs: seq<real>): (r: real)
    requires |xs| > 0
    ensures r in xs
    ensures forall i :: 0 <= i < |xs| ==> xs[i] <= r
    decreases |xs|
  {
    if |xs| == 1 then xs[0]
    else
      var m := MaxOf(xs[1..]);
      assert forall i :: 1 <= i < |xs| ==> xs[i] == xs[1..][i - 1];
      if xs[0] >= m then xs[0] else m
  }

  /** The value one minute gets, or None when the aggregation type is not known. */
  function Aggregate(kind: string, groups: Groups): Option<real>
    requires Aggregable(kind, groups)
  {
    if kind == "weighted" then
      var totalWeight := TotalWeight(groups);
      Some(if totalWeight != 0.0 then TotalWeightedValue(groups) / totalWeight else 0.0)
    else if kind == "average" then Some(SumOf(ValuesOf(groups)) / |groups| as real)
    else if kind == "sum" then Some(SumOf(ValuesOf(groups)))
    else if kind == "minimum" || kind == "min" then Some(MinOf(ValuesOf(groups)))
    else if kind == "maximum" || kind == "max" then Some(MaxOf(ValuesOf(groups)))
    else None
  }

  /** The totals loop of the weighted aggregation. */
  method WeightedTotalsOf(groups: Groups) returns (totalWeight: real, totalValue: real)
    ensures totalWeight == TotalWeight(groups)
    ensures totalValue == TotalWeightedValue(groups)
  {
    totalWeight, totalValue := 0.0, 0.0;
    for i := 0 to |groups|
      invariant totalWeight == TotalWeight(groups[..i])
      invariant totalValue == TotalWeightedValue(groups[..i])
    {
      assert groups[..i + 1][..i] == groups[..i];
      assert Last(groups[..i + 1]) == groups[i];
      var entry := groups[i].1;
      if entry.value.Some? {
        var weight := entry.weight.GetOr(1.0);
        totalWeight := totalWeight + weight;
        totalValue := totalValue + entry.value.value * weight;
      }
    }
    assert groups[..|groups|] == groups;
  }

  /** The totals loop of the average and sum aggregations. */
  method SumValues(groups: Groups) returns (total: real)
    requires AllValued(groups)
    ensures total == SumOf(ValuesOf(groups))
  {
    ghost var xs := ValuesOf(groups);
    total := 0.0;
    for i := 0 to |groups|
      invariant total == SumOf(xs[..i])
    {
      assert xs[..i + 1][..i] == xs[..i];
      assert groups[i] in groups;
      total := total + groups[i].1.value.value;
    }
    assert xs[..|groups|] == xs;
  }

  /** The aggregation of one minute. */
  method AggregateMinute(kind: string, groups: Groups) returns (r: Option<real>)
    requires Aggregable(kind, groups)
    ensures r == Aggregate(kind, groups)
  {
    if kind == "weighted" {
      var totalWeight, totalValue := WeightedTotalsOf(groups);
      r := Some(if totalWeight != 0.0 then totalValue / totalWeight else 0.0);
    } else if kind == "average" {
      var totalValue := SumValues(groups);
      r := Some(totalValue / |groups| as real);
    } else if kind == "sum" {
      var totalValue := SumValues(groups);
      r := Some(totalValue);
    } else if kind == "minimum" || kind == "min" {
      r := Some(MinOf(ValuesOf(groups)));
    } else if kind == "maximum" || kind == "max" {
      r := Some(MaxOf(ValuesOf(groups)));
    } else {
      r := None;
    }
  }

  predicate AllAggregable(kind: string, b: Buckets) {
    forall i :: 0 <= i < |b| ==> Aggregable(kind, b[i].1)
  }

  /** The result dictionary: one value per minute whose aggregation type is known, in order. */
  function AggregateAll(kind: string, b: Buckets): seq<(int, real)>
    requires AllAggregable(kind, b)
    decreases |b|
  {
    if |b| == 0 then []
    else
      var init := AggregateAll(kind, b[..|b| - 1]);
      match Aggregate(kind, Last(b).1)
      case Some(v) => init + [(Last(b).0, v)]
      case None => init
  }

  /** The aggregation loop over the minutes of `_query_kairosdb`. */
  method AggregateBuckets(kind: string, b: Buckets) returns (result: seq<(int, real)>)
    requires AllAggregable(kind, b)
    ensures result == AggregateAll(kind, b)
  {
    result := [];
    for i := 0 to |b|
      invariant result == AggregateAll(kind, b[..i])
    {
      assert b[..i + 1][..i] == b[..i];
      var (minute, values) := b[i];
      var r := AggregateMinute(kind, values);
      if r.Some? {
        result := result + [(minute, r.value)];
      }
    }
    assert b[..|b|] == b;
  }

  /**
   * A known aggregation type gives every minute its aggregate, in the buckets' order; an
   * unknown one gives nothing.
   */
  lemma {:induction false} AggregateAllMeaning(kind: string, b: Buckets)
    requires AllAggregable(kind, b)
    ensures kind in AggregationTypes ==>
      |AggregateAll(kind, b)| == |b| &&
      forall i :: 0 <= i < |b| ==> AggregateAll(kind, b)[i] == (b[i].0, Aggregate(kind, b[i].1).value)
    ensures kind !in AggregationTypes ==> AggregateAll(kind, b) == []
    decreases |b|
  {
    if |b| > 0 {
      AggregateAllMeaning(kind, b[..|b| - 1]);
    }
  }

  /** The minutes of a KairosDB response can always be aggregated without an exception. */
  lemma BucketsAggregable(src: ZmonSource, fnmatch: Matcher, rs: seq<Series>)
    ensures AllAggregable(src.aggType, BucketSeries(src, fnmatch, rs))
  {
    var b := BucketSeries(src, fnmatch, rs);
    BucketsWellFormed(src, fnmatch, rs);
    if src.aggType != "weighted" {
      BucketSeriesValued(src, fnmatch, rs);
    }
    forall i | 0 <= i < |b| ensures Aggregable(src.aggType, b[i].1) {
      GetEntry(b, i);
      assert b[i].0 in Keys(b);
      assert GetOr(b, b[i].0, []) == b[i].1;
    }
  }

  /** What `_query_kairosdb` returns for a response's result series. */
  function QueryResult(src: ZmonSource, fnmatch: Matcher, rs: seq<Series>): seq<(int, real)> {
    BucketsAggregable(src, fnmatch, rs);
    AggregateAll(src.aggType, BucketSeries(src, fnmatch, rs))
  }

  /** The processing of a KairosDB response in `_query_kairosdb`. */
  method ProcessResponse(src: ZmonSource, fnmatch: Matcher, rs: seq<Series>) returns (result: seq<(int, real)>)
    ensures result == QueryResult(src, fnmatch, rs)
  {
    var res := Bucket(src, fnmatch, rs);
    BucketsAggregable(src, fnmatch, rs);
    result := AggregateBuckets(src.aggType, res);
  }

  /**
   * With a known aggregation type the result holds each minute once, and exactly the minutes
   * some counted series has a point in; with an unknown type it is empty.
   */
  lemma QueryResultMinutes(src: ZmonSource, fnmatch: Matcher, rs: seq<Series>, m: int)
    ensures src.aggType in AggregationTypes ==>
      DistinctKeys(QueryResult(src, fnmatch, rs)) &&
      (m in Keys(QueryResult(src, fnmatch, rs)) <==>
       exists i :: 0 <= i < |rs| && Counted(src, fnmatch, rs[i]) && HitsMinute(rs[i], m))
    ensures src.aggType !in AggregationTypes ==> QueryResult(src, fnmatch, rs) == []
  {
    var b := BucketSeries(src, fnmatch, rs);
    BucketMinutes(src, fnmatch, rs, m);
    BucketsAggregable(src, fnmatch, rs);
    BucketsWellFormed(src, fnmatch, rs);
    AggregateAllMeaning(src.aggType, b);
    if src.aggType in AggregationTypes {
      assert Keys(QueryResult(src, fnmatch, rs)) == Keys(b);
    }
  }

  // ---------------------------------------------------------------------------------------
  // Properties of the aggregations

  lemma QuotientBetween(a: real, n: real, lo: real, hi: real)
    requires n > 0.0 && Between(n, a, lo, hi)
    ensures lo <= a / n <= hi
  {
    var q := a / n;
    assert q * n == a;
  }

  lemma ScaleMonotone(a: real, b: real, w: real)
    requires a <= b && w >= 0.0
    ensures a * w <= b * w
  {
    assert (b - a) * w >= 0.0;
  }

  /** Adding a value within bounds to a sum keeps the sum within the bounds times the count. */
  lemma SumStep(n: real, t: real, v: real, lo: real, hi: real)
    requires Between(n, t, lo, hi) && lo <= v <= hi
    ensures Between(n + 1.0, t + v, lo, hi)
  {
    assert lo * (n + 1.0) == lo * n + lo;
    assert hi * (n + 1.0) == hi * n + hi;
  }

  lemma {:induction false} SumBounds(xs: seq<real>, lo: real, hi: real)
    requires forall i :: 0 <= i < |xs| ==> lo <= xs[i] <= hi
    ensures Between(|xs| as real, SumOf(xs), lo, hi)
    decreases |xs|
  {
    if |xs| > 0 {
      var init := xs[..|xs| - 1];
      SumBounds(init, lo, hi);
      SumStep(|init| as real, SumOf(init), Last(xs), lo, hi);
    }
  }

  /** The average of a minute lies between its minimum and its maximum. */
  lemma AverageBetweenMinAndMax(groups: Groups)
    requires AllValued(groups) && |groups| > 0
    ensures MinOf(ValuesOf(groups)) <= Aggregate("average", groups).value <= MaxOf(ValuesOf(groups))
  {
    var xs := ValuesOf(groups);
    assert Aggregate("average", groups) == Some(SumOf(xs) / |xs| as real);
    SumBounds(xs, MinOf(xs), MaxOf(xs));
    QuotientBetween(SumOf(xs), |xs| as real, MinOf(xs), MaxOf(xs));
  }

  /** A minute whose groups all report the same value averages to that value. */
  lemma AverageOfEqualValues(groups: Groups, c: real)
    requires AllValued(groups) && |groups| > 0
    requires forall i :: 0 <= i < |groups| ==> groups[i].1.value == Some(c)
    ensures Aggregate("average", groups) == Some(c)
  {
    AverageBetweenMinAndMax(groups);
    var xs := ValuesOf(groups);
    assert MinOf(xs) == c && MaxOf(xs) == c;
  }

  lemma {:induction false} WeightedTotalsWithoutWeights(groups: Groups)
    requires forall i :: 0 <= i < |groups| ==> groups[i].1.value.Some? && groups[i].1.weight.None?
    ensures TotalWeight(groups) == |groups| as real
    ensures TotalWeightedValue(groups) == SumOf(ValuesOf(groups))
    decreases |groups|
  {
    if |groups| > 0 {
      var init := groups[..|groups| - 1];
      WeightedTotalsWithoutWeights(init);
      assert ValuesOf(groups)[..|groups| - 1] == ValuesOf(init);
    }
  }

  /** A weighted minute where no weight was reported is the plain average of its values. */
  lemma WeightedWithoutWeightsIsAverage(groups: Groups)
    requires |groups| > 0
    requires forall i :: 0 <= i < |groups| ==> groups[i].1.value.Some? && groups[i].1.weight.None?
    ensures Aggregate("weighted", groups) == Aggregate("average", groups)
  {
    WeightedTotalsWithoutWeights(groups);
  }

  /** Adding a positively weighted value within bounds keeps the totals within bounds. */
  lemma BoundsStep(t0: real, t1: real, w: real, v: real, lo: real, hi: real)
    requires t0 >= 0.0 && lo * t0 <= t1 <= hi * t0
    requires w > 0.0 && lo <= v <= hi
    ensures lo * (t0 + w) <= t1 + v * w <= hi * (t0 + w)
  {
    ScaleMonotone(lo, v, w);
    ScaleMonotone(v, hi, w);
    assert lo * (t0 + w) == lo * t0 + lo * w;
    assert hi * (t0 + w) == hi * t0 + hi * w;
  }

  predicate PositiveWeights(groups: Groups) {
    forall i :: 0 <= i < |groups| ==> groups[i].1.weight.Some? ==> groups[i].1.weight.value > 0.0
  }

  predicate ValuesWithin(groups: Groups, lo: real, hi: real) {
    forall i :: 0 <= i < |groups| ==> groups[i].1.value.Some? ==> lo <= groups[i].1.value.value <= hi
  }

  /** The last group has a positive weight (if any) and a value within the bounds (if any). */
  predicate SlotWithin(slot: Slot, lo: real, hi: real) {
    (slot.weight.Some? ==> slot.weight.value > 0.0) && (slot.value.Some? ==> lo <= slot.value.value <= hi)
  }

  /** PositiveWeights and ValuesWithin group by group, in the order the totals are summed. */
  predicate SlotsWithin(groups: Groups, lo: real, hi: real)
    decreases |groups|
  {
    |groups| == 0 || (SlotsWithin(groups[..|groups| - 1], lo, hi) && SlotWithin(Last(groups).1, lo, hi))
  }

  lemma {:induction false} SlotsWithinAll(groups: Groups, lo: real, hi: real)
    requires PositiveWeights(groups) && ValuesWithin(groups, lo, hi)
    ensures SlotsWithin(groups, lo, hi)
    decreases |groups|
  {
    if |groups| > 0 {
      var init := groups[..|groups| - 1];
      assert PositiveWeights(init) && ValuesWithin(init, lo, hi) by {
        assert forall i :: 0 <= i < |init| ==> init[i] == groups[i];
      }
      SlotsWithinAll(init, lo, hi);
    }
  }

  /** Weighted totals whose quotient lies within [lo, hi]. */
  predicate Between(totalWeight: real, totalValue: real, lo: real, hi: real) {
    totalWeight >= 0.0 && lo * totalWeight <= totalValue <= hi * totalWeight
  }

  /** Positive weights bound the weighted totals by the extreme values. */
  lemma {:induction false} WeightedTotalsBounds(groups: Groups, lo: real, hi: real)
    requires SlotsWithin(groups, lo, hi)
    ensures Between(TotalWeight(groups), TotalWeightedValue(groups), lo, hi)
    decreases |groups|
  {
    if |groups| > 0 {
      var init := groups[..|groups| - 1];
      WeightedTotalsBounds(init, lo, hi);
      SlotStep(TotalWeight(init), TotalWeightedValue(init), Last(groups).1, lo, hi,
               TotalWeight(groups), TotalWeightedValue(groups));
    }
  }

  /** The step of WeightedTotalsBounds: one more group keeps the totals within the bounds. */
  lemma SlotStep(t0: real, t1: real, slot: Slot, lo: real, hi: real, u0: real, u1: real)
    requires Between(t0, t1, lo, hi) && SlotWithin(slot, lo, hi)
    requires u0 == t0 + (if slot.value.Some? then WeightOf(slot) else 0.0)
    requires u1 == t1 + (if slot.value.Some? then slot.value.value * WeightOf(slot) else 0.0)
    ensures Between(u0, u1, lo, hi)
  {
    if slot.value.Some? {
      BoundsStep(t0, t1, WeightOf(slot), slot.value.value, lo, hi);
    }
  }

  /** With positive weights, one group with a value makes the total weight positive. */
  lemma {:induction false} WeightedTotalPositive(groups: Groups)
    requires PositiveWeights(groups)
    ensures TotalWeight(groups) >= 0.0
    ensures (exists i :: 0 <= i < |groups| && groups[i].1.value.Some?) ==> TotalWeight(groups) > 0.0
    decreases |groups|
  {
    if |groups| > 0 {
      var init := groups[..|groups| - 1];
      WeightedTotalPositive(init);
      if exists i :: 0 <= i < |groups| && groups[i].1.value.Some? {
        var i :| 0 <= i < |groups| && groups[i].1.value.Some?;
        if i < |groups| - 1 {
          assert init[i] == groups[i];
        }
      }
    }
  }

  /** With positive weights a weighted minute lies between the least and the greatest value. */
  lemma WeightedBetweenBounds(groups: Groups, lo: real, hi: real)
    requires exists i :: 0 <= i < |groups| && groups[i].1.value.Some?
    requires PositiveWeights(groups) && ValuesWithin(groups, lo, hi)
    ensures lo <= Aggregate("weighted", groups).value <= hi
  {
    SlotsWithinAll(groups, lo, hi);
    WeightedTotalsBounds(groups, lo, hi);
    WeightedTotalPositive(groups);
    var totalWeight, totalValue := TotalWeight(groups), TotalWeightedValue(groups);
    assert Between(totalWeight, totalValue, lo, hi);
    QuotientBetween(totalValue, totalWeight, lo, hi);
  }

  // ---------------------------------------------------------------------------------------
  // Clamping

  /** The clamping of `update_indicator_values`: non-zero values keep at least MinVal of magnitude. */
  function Clamp(v: real): real {
    if v > 0.0 then (if v >= MinVal then v else MinVal)
    else if v < 0.0 then (if v <= -MinVal then v else -MinVal)
    else v
  }

  /**
   * Clamping keeps the sign, leaves zero and every value of magnitude at least MinVal alone,
   * lifts the rest to MinVal in magnitude, moves a value by less than MinVal and is idempotent.
   */
  lemma ClampMeaning(v: real)
    ensures (Clamp(v) > 0.0 <==> v > 0.0) && (Clamp(v) < 0.0 <==> v < 0.0)
    ensures v == 0.0 ==> Clamp(v) == 0.0
    ensures v != 0.0 ==> Clamp(v) >= MinVal || Clamp(v) <= -MinVal
    ensures (v >= MinVal || v <= -MinVal) ==> Clamp(v) == v
    ensures -MinVal < Clamp(v) - v < MinVal
    ensures Clamp(Clamp(v)) == Clamp(v)
  {
  }
}
