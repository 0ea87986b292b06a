/**
 * The command-line client's checks (`zmon_slr/main.py`): flattening a check result into
 * dotted keys, the validators that record errors on an `Action` before anything is sent,
 * the search for the SLI keys in a check's alert data, and the range check of `sli query`.
 * The ZMON lookups behind the key search are inputs: one entity-to-value dict per alert of
 * the check, as the alert data's first results give them.
 */
module SlrCli {
  import opened Wrappers
  import opened PyStr
  import opened OrderedDict
  import opened PyValue
  import opened CliAction
  import Zmon
  import Kairos
  import Lightstep
  import SliApi

  // ---------------------------------------------------------------------------------------
  // flatten

  /** `'.'.join(filter(None, [path, key]))` */
  function JoinPath(path: string, key: string): string {
    if |path| == 0 then key else if |key| == 0 then path else path + "." + key
  }

  /** The key a leaf is stored under: `(path + '.' if path else '') + key`. */
  function LeafKey(path: string, key: string): string {
    (if |path| > 0 then path + "." else "") + key
  }

  /** `flatten(structure, key, path, flattened)`: the accumulator after the call. */
  function FlattenInto(structure: Value, key: string, path: string, flattened: Dict): Dict
    decreases structure, if structure.Object? then |structure.entries| + 1 else 0
  {
    if !structure.Object? then Put(flattened, LeafKey(path, key), structure)
    else FlattenItems(structure, 0, JoinPath(path, key), flattened)
  }

  /** The loop over `structure.items()` from the i-th item on. */
  function FlattenItems(parent: Value, i: nat, path: string, flattened: Dict): Dict
    requires parent.Object? && i <= |parent.entries|
    decreases parent, |parent.entries| - i
  {
    if i == |parent.entries| then flattened
    else
      var item := parent.entries[i];
      FlattenItems(parent, i + 1, path, FlattenInto(item.1, item.0, path, flattened))
  }

  /** `flatten(structure)` */
  function Flatten(structure: Value): Dict {
    FlattenInto(structure, "", "", [])
  }

  /** No value is a dict. */
  predicate Leaves(d: Dict) {
    forall e :: e in d ==> !e.1.Object?
  }

  /** Flattening only adds leaves, each under a key of its own. */
  lemma {:induction false} FlattenIntoLeaves(structure: Value, key: string, path: string, flattened: Dict)
    requires Leaves(flattened) && DistinctKeys(flattened)
    ensures Leaves(FlattenInto(structure, key, path, flattened))
    ensures DistinctKeys(FlattenInto(structure, key, path, flattened))
    decreases structure, if structure.Object? then |structure.entries| + 1 else 0
  {
    if !structure.Object? {
      PutEntries(flattened, LeafKey(path, key), structure);
      PutDistinct(flattened, LeafKey(path, key), structure);
    } else {
      FlattenItemsLeaves(structure, 0, JoinPath(path, key), flattened);
    }
  }

  lemma {:induction false} FlattenItemsLeaves(parent: Value, i: nat, path: string, flattened: Dict)
    requires parent.Object? && i <= |parent.entries|
    requires Leaves(flattened) && DistinctKeys(flattened)
    ensures Leaves(FlattenItems(parent, i, path, flattened))
    ensures DistinctKeys(FlattenItems(parent, i, path, flattened))
    decreases parent, |parent.entries| - i
  {
    if i < |parent.entries| {
      var item := parent.entries[i];
      FlattenIntoLeaves(item.1, item.0, path, flattened);
      FlattenItemsLeaves(parent, i + 1, path, FlattenInto(item.1, item.0, path, flattened));
    }
  }

  /** A dict without nested dicts and without repeated keys flattens to itself. */
  lemma FlattenFlat(d: Dict)
    requires Leaves(d) && DistinctKeys(d)
    ensures Flatten(Object(d)) == d
  {
    FlattenItemsFlat(d, 0);
    assert d[..0] == [];
  }

  lemma {:induction false} FlattenItemsFlat(d: Dict, i: nat)
    requires Leaves(d) && DistinctKeys(d) && i <= |d|
    ensures FlattenItems(Object(d), i, "", d[..i]) == d
    decreases |d| - i
  {
    if i < |d| {
      assert d[i] in d;
      assert d[i].0 !in Keys(d[..i]);
      assert LeafKey("", d[i].0) == d[i].0;
      assert !d[i].1.Object?;
      PutAbsent(d[..i], d[i].0, d[i].1);
      assert d[..i] + [d[i]] == d[..i + 1];
      assert FlattenInto(d[i].1, d[i].0, "", d[..i]) == d[..i + 1];
      FlattenItemsFlat(d, i + 1);
    } else {
      assert d[..i] == d;
    }
  }

  /**
   * `flatten` is idempotent on dicts: its result holds only leaves under distinct dotted
   * keys, and flattening that again changes nothing.
   */
  lemma FlattenIdempotent(structure: Value)
    ensures Leaves(Flatten(structure)) && DistinctKeys(Flatten(structure))
    ensures Flatten(Object(Flatten(structure))) == Flatten(structure)
  {
    FlattenIntoLeaves(structure, "", "", []);
    FlattenFlat(Flatten(structure));
  }

  /** Anything that is not a dict is a single leaf under the empty key. */
  lemma FlattenLeaf(structure: Value)
    requires !structure.Object?
    ensures Flatten(structure) == [("", structure)]
  {
    assert LeafKey("", "") == "";
  }

  const Nested: Value := Object([("a", Object([("b", Object([("c", Array([Str("d"), Str("e")]))]))]))])
  const Mixed: Value := Object([("a", Object([("b", Str("c"))])), ("d", Str("e"))])

  /**
   * The documented examples: `{}` flattens to `{}`, a list stays a leaf under "a.b.c", and
   * `{'a': {'b': 'c'}, 'd': 'e'}` gives "a.b" and "d".
   */
  lemma FlattenExamples()
    ensures Flatten(Object([])) == []
    ensures Flatten(Nested) == [("a.b.c", Array([Str("d"), Str("e")]))]
    ensures Flatten(Mixed) == [("a.b", Str("c")), ("d", Str("e"))]
  {
    assert JoinPath("a", "b") == "a.b";
    assert LeafKey("a.b", "c") == "a.b.c";
    assert LeafKey("a", "b") == "a.b";
    assert LeafKey("", "d") == "d";
    var a := Object([("b", Str("c"))]);
    assert FlattenInto(a, "a", "", []) == [("a.b", Str("c"))] by {
      assert JoinPath("", "a") == "a";
      assert FlattenItems(a, 1, "a", [("a.b", Str("c"))]) == [("a.b", Str("c"))];
    }
    assert "a.b" != "d";
    assert Put([("a.b", Str("c"))], "d", Str("e")) == [("a.b", Str("c")), ("d", Str("e"))];
    assert FlattenItems(Mixed, 2, "", [("a.b", Str("c")), ("d", Str("e"))]) == [("a.b", Str("c")), ("d", Str("e"))];
  }

  // ---------------------------------------------------------------------------------------
  // validate_target, validate_slo


  /** A target's bound is absent, or neither None nor a number. */
  predicate BadBound(target: Dict, bound: string) {
    bound !in Keys(target) || (Get(target, bound).value != Null && !IsNumber(Get(target, bound).value))
  }

  function TargetMessages(target: Dict): seq<Message> {
    (if "sli_uri" !in Keys(target) then [Text(SliUriMissing)] else []) +
    (if BadBound(target, "from") then [Text(FromMissing)] else []) +
    (if BadBound(target, "to") then [Text(ToMissing)] else [])
  }

  /** `validate_target` */
  method ValidateTarget(target: Dict, act: Action)
    modifies act
    ensures act.errors == old(act.errors) + TargetMessages(target)
  {
    if "sli_uri" !in Keys(target) {
      act.Error(Text(SliUriMissing));
    }
    if BadBound(target, "from") {
      act.Error(Text(FromMissing));
    }
    if BadBound(target, "to") {
      act.Error(Text(ToMissing));
    }
  }

  /**
   * A target passes exactly when it names its SLI and both bounds are present, each None
   * or a number; each failing check records one message.
   */
  lemma TargetMessagesMeaning(target: Dict)
    ensures TargetMessages(target) == [] <==>
      "sli_uri" in Keys(target) &&
      "from" in Keys(target) && (Get(target, "from").value == Null || IsNumber(Get(target, "from").value)) &&
      "to" in Keys(target) && (Get(target, "to").value == Null || IsNumber(Get(target, "to").value))
    ensures Text(SliUriMissing) in TargetMessages(target) <==> "sli_uri" !in Keys(target)
    ensures |TargetMessages(target)| <= 3
  {
  }

  /** The targets of an SLO, when they are a list of dicts (or absent). */
  predicate TargetsShaped(slo: Dict) {
    var ts := GetOr(slo, "targets", Array([]));
    ts.Array? && forall t :: t in ts.items ==> t.Object?
  }

  function TargetDicts(slo: Dict): (r: seq<Dict>)
    requires TargetsShaped(slo)
    ensures |r| == |GetOr(slo, "targets", Array([])).items|
    ensures forall i :: 0 <= i < |r| ==> Object(r[i]) == GetOr(slo, "targets", Array([])).items[i]
  {
    var items := GetOr(slo, "targets", Array([])).items;
    seq(|items|, i requires 0 <= i < |items| => if items[i].Object? then items[i].entries else [])
  }

  function AllTargetMessages(ts: seq<Dict>): seq<Message> {
    ConcatMap(TargetMessages, ts)
  }

  function SloMessages(slo: Dict): seq<Message>
    requires TargetsShaped(slo)
  {
    (if !Truthy(GetOr(slo, "title", Null)) then [Text(TitleMissing)] else []) + AllTargetMessages(TargetDicts(slo))
  }

  /** `validate_slo` */
  method ValidateSlo(slo: Dict, act: Action)
    requires TargetsShaped(slo)
    modifies act
    ensures act.errors == old(act.errors) + SloMessages(slo)
  {
    if !Truthy(GetOr(slo, "title", Null)) {
      act.Error(Text(TitleMissing));
    }
    ValidateTargets(TargetDicts(slo), act);
  }

  /** The loop of `validate_slo` over the targets. */
  method ValidateTargets(ts: seq<Dict>, act: Action)
    modifies act
    ensures act.errors == old(act.errors) + AllTargetMessages(ts)
  {
    ghost var start := act.errors;
    for i := 0 to |ts|
      invariant act.errors == start + AllTargetMessages(ts[..i])
    {
      ghost var done, next := AllTargetMessages(ts[..i]), TargetMessages(ts[i]);
      ConcatMapSnoc(TargetMessages, ts, i);
      ValidateTarget(ts[i], act);
      assert act.errors == (start + done) + next == start + (done + next);
    }
    assert ts[..|ts|] == ts;
  }

  /** An SLO passes exactly when it has a truthy title and every one of its targets passes. */
  lemma SloMessagesMeaning(slo: Dict)
    requires TargetsShaped(slo)
    ensures SloMessages(slo) == [] <==>
      Truthy(GetOr(slo, "title", Null)) &&
      forall i :: 0 <= i < |TargetDicts(slo)| ==> TargetMessages(TargetDicts(slo)[i]) == []
  {
    ConcatMapEmpty(TargetMessages, TargetDicts(slo));
  }

  // ---------------------------------------------------------------------------------------
  // validate_zmon_source

  /** `AGG_TYPES` of this client. */
  const AggTypes: seq<string> := ["average", "weighted", "sum", "min", "max", "minimum", "maximum"]

  const SourceDefinition: string := "SLI source"

  /**
   * The structural checks, recorded in order; a non-dict aggregation stops them with an
   * AttributeError. A missing check_id or missing or empty keys records one more, empty, message.
   */
  function ZmonStructure(source: Dict): Outcome {
    var aggregation := GetOr(source, "aggregation", Object([]));
    if !aggregation.Object? then Outcome(KeysMessages(source), Err(Raised("AttributeError")))
    else
      Outcome(KeysMessages(source) + AggregationMessages(source, aggregation.entries) + CheckMessage(source),
        Ok(()))
  }

  /** The missing fields, then empty keys. */
  function KeysMessages(source: Dict): seq<Message> {
    var missing := MissingFields(source, Zmon.RequiredKeys);
    (if missing != {} then [Missing(missing, SourceDefinition)] else []) +
    (if "keys" in Keys(source) && !Truthy(GetOr(source, "keys", Null)) then [Text(KeysEmpty)] else [])
  }

  /** A present aggregation needs a known type, and "weighted" needs weight_keys. */
  function AggregationMessages(source: Dict, aggregation: Dict): seq<Message> {
    var aggType := GetOr(aggregation, "type", Null);
    if "aggregation" !in Keys(source) then []
    else
      (if !(aggType.Str? && aggType.s in AggTypes) then [Text(TypeInvalid)] else []) +
      (if aggType == Str("weighted") && !Truthy(GetOr(aggregation, "weight_keys", Null))
       then [Text(WeightKeysMissing)] else [])
  }

  /** The empty message for a missing check_id or missing or empty keys. */
  function CheckMessage(source: Dict): seq<Message> {
    if "check_id" !in Keys(source) || !Truthy(GetOr(source, "keys", Null)) then [Text(Blank)] else []
  }

  /** `'.*' in k` */
  predicate Wildcard(k: string) {
    exists i :: 0 <= i < |k| - 1 && k[i] == '.' && k[i + 1] == '*'
  }

  /** `[k for k in keys if '.*' not in k]` */
  function WithoutWildcards(ks: seq<string>): (r: seq<string>)
    ensures forall k :: k in r <==> k in ks && !Wildcard(k)
    decreases |ks|
  {
    if |ks| == 0 then []
    else
      assert ks == ks[..|ks| - 1] + [Last(ks)];
      WithoutWildcards(ks[..|ks| - 1]) + (if Wildcard(Last(ks)) then [] else [Last(ks)])
  }

  lemma {:induction false} AllWildcards(ks: seq<string>)
    requires forall k :: k in ks ==> Wildcard(k)
    ensures WithoutWildcards(ks) == []
    decreases |ks|
  {
    if |ks| > 0 {
      AllWildcards(ks[..|ks| - 1]);
      assert Last(ks) in ks;
    }
  }

  function StrItems(items: seq<Value>): Option<seq<string>>
    decreases |items|
  {
    if |items| == 0 then Some([])
    else if !items[0].Str? then None
    else
      match StrItems(items[1..])
      case None => None
      case Some(rest) => Some([items[0].s] + rest)
  }

  /**
   * The strings iterating `source['keys']` gives: a list's items, a string's characters, a
   * dict's keys. Anything else, and a list with an item that is not a string, raises TypeError.
   */
  function KeyStrings(v: Value): Result<seq<string>, Failure> {
    match v
    case Array(items) => if StrItems(items).Some? then Ok(StrItems(items).value) else Err(Raised("TypeError"))
    case Str(s) => Ok(seq(|s|, i requires 0 <= i < |s| => [s[i]]))
    case Object(entries) => Ok(Keys(entries))
    case _ => Err(Raised("TypeError"))
  }

  /** One entity's data has the keys: a dict whose flattened keys hold them all. */
  predicate Covers(data: Value, keys: seq<string>) {
    data.Object? && forall k :: k in keys ==> k in Keys(Flatten(data))
  }

  /** Some entity of one alert has the keys. */
  predicate CoveredIn(values: Dict, keys: seq<string>) {
    exists j :: 0 <= j < |values| && Covers(values[j].1, keys)
  }

  /** Some entity of some alert has the keys. */
  predicate KeysFound(alerts: seq<Dict>, keys: seq<string>) {
    exists i :: 0 <= i < |alerts| && CoveredIn(alerts[i], keys)
  }

  function FlatKeys(data: Value): set<string> {
    if data.Object? then set k | k in Keys(Flatten(data)) else {}
  }

  function EntityKeys(values: Dict): set<string>
    decreases |values|
  {
    if |values| == 0 then {} else EntityKeys(values[..|values| - 1]) + FlatKeys(Last(values).1)
  }

  /** Every flattened key of every entity's dict data: the keys the failure message lists. */
  function SampleKeys(alerts: seq<Dict>): set<string>
    decreases |alerts|
  {
    if |alerts| == 0 then {} else SampleKeys(alerts[..|alerts| - 1]) + EntityKeys(Last(alerts))
  }

  /**
   * The search for the SLI keys: alert by alert, entity by entity, until an entity's dict
   * data has all of them once flattened. It fails exactly when no entity of any alert has
   * them, and then names every key seen.
   */
  method FindKeys(keys: seq<string>, alerts: seq<Dict>) returns (r: Result<(), set<string>>)
    ensures r.Ok? <==> KeysFound(alerts, keys)
    ensures r.Err? ==> r.error == SampleKeys(alerts)
  {
    var sliExists := false;
    var sample: set<string> := {};
    var i := 0;
    while i < |alerts| && !sliExists
      invariant 0 <= i <= |alerts|
      invariant sliExists ==> KeysFound(alerts, keys)
      invariant !sliExists ==> !KeysFound(alerts[..i], keys) && sample == SampleKeys(alerts[..i])
    {
      ghost var before := sample;
      sliExists, sample := SearchEntities(keys, alerts[i], sample);
      if !sliExists {
        assert alerts[..i + 1][..i] == alerts[..i];
        assert forall i' :: 0 <= i' < i ==> alerts[..i + 1][i'] == alerts[..i][i'];
      }
      i := i + 1;
    }
    if sliExists {
      return Ok(());
    }
    assert alerts[..i] == alerts;
    return Err(sample);
  }

  /**
   * The loop over one alert's entities: whether one has the keys, and the keys seen added
   * to `sample` (all of the alert's keys when none has them).
   */
  method SearchEntities(keys: seq<string>, values: Dict, sample: set<string>) returns (found: bool, seen: set<string>)
    ensures found <==> CoveredIn(values, keys)
    ensures !found ==> seen == sample + EntityKeys(values)
  {
    seen := sample;
    var j := 0;
    while j < |values|
      invariant 0 <= j <= |values|
      invariant !CoveredIn(values[..j], keys)
      invariant seen == sample + EntityKeys(values[..j])
    {
      assert values[..j + 1][..j] == values[..j];
      var data := values[j].1;
      if data.Object? {
        var flattened := Flatten(data);
        seen := seen + set k | k in Keys(flattened);
        if forall k :: k in keys ==> k in Keys(flattened) {
          assert Covers(values[j].1, keys);
          return true, seen;
        }
      }
      assert !Covers(values[j].1, keys);
      j := j + 1;
    }
    assert values[..|values|] == values;
    return false, seen;
  }

  /**
   * The ZMON part of `validate_zmon_source`, after the structural checks: `int(check_id)`,
   * a check with alerts, then, unless keys are ignored or all are wildcards, the key search.
   */
  function ZmonRemote(source: Dict, alerts: seq<Dict>, ignoreKeys: bool): Result<(), Failure> {
    if "check_id" !in Keys(source) then Err(Raised("KeyError"))
    else if IntOf(Get(source, "check_id").value).Err? then Err(Raised(IntOf(Get(source, "check_id").value).error))
    else if |alerts| == 0 then Err(NoAlerts)
    else if ignoreKeys then Ok(())
    else if "keys" !in Keys(source) then Err(Raised("KeyError"))
    else
      match KeyStrings(Get(source, "keys").value)
      case Err(f) => Err(f)
      case Ok(ks) =>
        var wanted := WithoutWildcards(ks);
        if |wanted| == 0 || KeysFound(alerts, wanted) then Ok(())
        else Err(KeysNotFound(SampleKeys(alerts)))
  }

  /** How `validate_zmon_source` ends. */
  function ZmonResult(source: Dict, alerts: seq<Dict>, ignoreKeys: bool): Result<(), Failure> {
    if ZmonStructure(source).result.Err? then ZmonStructure(source).result
    else ZmonRemote(source, alerts, ignoreKeys)
  }

  /** `validate_zmon_source` */
  method ValidateZmonSource(source: Dict, alerts: seq<Dict>, ignoreKeys: bool, act: Action)
    returns (r: Result<(), Failure>)
    modifies act
    ensures act.errors == old(act.errors) + ZmonStructure(source).messages
    ensures r == ZmonResult(source, alerts, ignoreKeys)
  {
    r := CheckZmonStructure(source, act);
    if r.Ok? {
      r := CheckZmonKeys(source, alerts, ignoreKeys);
    }
  }

  /** The structural checks of `validate_zmon_source`. */
  method CheckZmonStructure(source: Dict, act: Action) returns (r: Result<(), Failure>)
    modifies act
    ensures act.errors == old(act.errors) + ZmonStructure(source).messages
    ensures r == ZmonStructure(source).result
  {
    ghost var start := act.errors;
    CheckFields(source, act);
    ghost var km := KeysMessages(source);
    assert act.errors == start + km;
    var aggregation := GetOr(source, "aggregation", Object([]));
    if !aggregation.Object? {
      assert ZmonStructure(source) == Outcome(km, Err(Raised("AttributeError")));
      return Err(Raised("AttributeError"));
    }
    CheckAggregation(source, aggregation.entries, act);
    ghost var am := AggregationMessages(source, aggregation.entries);
    assert act.errors == (start + km) + am;
    CheckGiven(source, act);
    ghost var cm := CheckMessage(source);
    assert act.errors == ((start + km) + am) + cm == start + (km + am + cm);
    assert ZmonStructure(source) == Outcome(km + am + cm, Ok(()));
    return Ok(());
  }

  method CheckFields(source: Dict, act: Action)
    modifies act
    ensures act.errors == old(act.errors) + KeysMessages(source)
  {
    var missing := MissingFields(source, Zmon.RequiredKeys);
    if missing != {} {
      act.Error(Missing(missing, SourceDefinition));
    }
    if "keys" in Keys(source) && !Truthy(GetOr(source, "keys", Null)) {
      act.Error(Text(KeysEmpty));
    }
  }

  method CheckAggregation(source: Dict, aggregation: Dict, act: Action)
    modifies act
    ensures act.errors == old(act.errors) + AggregationMessages(source, aggregation)
  {
    var aggType := GetOr(aggregation, "type", Null);
    if "aggregation" in Keys(source) {
      if !(aggType.Str? && aggType.s in AggTypes) {
        act.Error(Text(TypeInvalid));
      }
      if aggType == Str("weighted") && !Truthy(GetOr(aggregation, "weight_keys", Null)) {
        act.Error(Text(WeightKeysMissing));
      }
    }
  }

  method CheckGiven(source: Dict, act: Action)
    modifies act
    ensures act.errors == old(act.errors) + CheckMessage(source)
  {
    if "check_id" !in Keys(source) || !Truthy(GetOr(source, "keys", Null)) {
      act.Error(Text(Blank));
    }
  }

  /** The ZMON part of `validate_zmon_source`. */
  method CheckZmonKeys(source: Dict, alerts: seq<Dict>, ignoreKeys: bool) returns (r: Result<(), Failure>)
    ensures r == ZmonRemote(source, alerts, ignoreKeys)
  {
    if "check_id" !in Keys(source) {
      return Err(Raised("KeyError"));
    }
    var checkId := IntOf(Get(source, "check_id").value);
    if checkId.Err? {
      return Err(Raised(checkId.error));
    }
    if |alerts| == 0 {
      return Err(NoAlerts);
    }
    if ignoreKeys {
      return Ok(());
    }
    if "keys" !in Keys(source) {
      return Err(Raised("KeyError"));
    }
    var ks := KeyStrings(Get(source, "keys").value);
    if ks.Err? {
      return Err(ks.error);
    }
    var wanted := WithoutWildcards(ks.value);
    if |wanted| == 0 {
      return Ok(());
    }
    var found := FindKeys(wanted, alerts);
    if found.Err? {
      return Err(KeysNotFound(found.error));
    }
    return Ok(());
  }

  /**
   * The structural checks pass without a message exactly when the server's
   * `ZMON.validate_config` accepts the same source.
   */
  lemma ZmonStructureAgrees(source: Dict)
    ensures ZmonStructure(source) == Outcome([], Ok(())) <==> Zmon.ValidateConfig(source).Ok?
  {
    var aggregation := GetOr(source, "aggregation", Object([]));
    KeysMessagesEmpty(source);
    if aggregation.Object? {
      var km, am, cm := KeysMessages(source), AggregationMessages(source, aggregation.entries), CheckMessage(source);
      assert ZmonStructure(source) == Outcome(km + am + cm, Ok(()));
      assert km + am + cm == [] <==> km == [] && am == [] && cm == [];
      if "aggregation" in Keys(source) {
        AggregationMessagesEmpty(source, aggregation.entries);
      }
    }
  }

  /** No field message exactly when every required field is there and the keys are given. */
  lemma KeysMessagesEmpty(source: Dict)
    ensures KeysMessages(source) == [] <==> Zmon.HasRequiredKeys(source) && Zmon.KeysGiven(source)
  {
    MissingFieldsEmpty(source, Zmon.RequiredKeys);
    assert "keys" in Zmon.RequiredKeys;
  }

  /** No aggregation message exactly when the server finds the aggregation's type and weights valid. */
  lemma AggregationMessagesEmpty(source: Dict, aggregation: Dict)
    requires Get(source, "aggregation") == Some(Object(aggregation))
    ensures AggregationMessages(source, aggregation) == [] <==>
      Zmon.TypeValid(source) && (Zmon.AggregationType(source).value == "weighted" ==> Zmon.WeightKeysGiven(source))
    ensures AggregationMessages(source, aggregation) == [] ==> Zmon.AggregationGiven(source)
  {
    assert AggTypes == Kairos.AggregationTypes;
  }

  /**
   * The structural checks stop with an AttributeError exactly for a present aggregation that
   * is not a dict; otherwise a missing check_id or missing or empty keys always leaves the
   * empty message behind.
   */
  lemma ZmonStructureMeaning(source: Dict)
    ensures ZmonStructure(source).result.Err? <==>
      "aggregation" in Keys(source) && !Get(source, "aggregation").value.Object?
    ensures (ZmonStructure(source).result.Ok? &&
      ("check_id" !in Keys(source) || !Truthy(GetOr(source, "keys", Null)))) ==>
      Text(Blank) in ZmonStructure(source).messages
  {
  }

  /**
   * The ZMON part passes exactly when check_id is present and converts, the check has
   * alerts, and the keys are ignored, all wildcards, or found in some entity's data.
   */
  lemma ZmonRemoteMeaning(source: Dict, alerts: seq<Dict>, ignoreKeys: bool)
    ensures ZmonRemote(source, alerts, ignoreKeys).Ok? <==>
      "check_id" in Keys(source) && IntOf(Get(source, "check_id").value).Ok? && |alerts| > 0 &&
      (ignoreKeys ||
        ("keys" in Keys(source) && KeyStrings(Get(source, "keys").value).Ok? &&
         var wanted := WithoutWildcards(KeyStrings(Get(source, "keys").value).value);
         |wanted| == 0 || KeysFound(alerts, wanted)))
    ensures ZmonRemote(source, alerts, ignoreKeys).Err? && ZmonRemote(source, alerts, ignoreKeys).error.KeysNotFound? ==>
      ZmonRemote(source, alerts, ignoreKeys).error.sample == SampleKeys(alerts)
  {
  }

  /** Keys that are all wildcards are never searched for: any alerts will do. */
  lemma WildcardKeysSkipped(source: Dict, alerts: seq<Dict>)
    requires "check_id" in Keys(source) && IntOf(Get(source, "check_id").value).Ok? && |alerts| > 0
    requires "keys" in Keys(source) && KeyStrings(Get(source, "keys").value).Ok?
    requires forall k :: k in KeyStrings(Get(source, "keys").value).value ==> Wildcard(k)
    ensures ZmonRemote(source, alerts, false) == Ok(())
  {
    AllWildcards(KeyStrings(Get(source, "keys").value).value);
  }

  // ---------------------------------------------------------------------------------------
  // validate_lightstep_source

  const LightstepRequired: seq<string> := ["stream-id", "metric"]
  const LightstepMetrics: seq<string> := ["ops-count", "error-count", "p50", "p75", "p90", "p99"]

  function LightstepMessages(source: Dict): seq<Message> {
    var missing := MissingFields(source, LightstepRequired);
    var metric := GetOr(source, "metric", Str(""));
    (if missing != {} then [Missing(missing, SourceDefinition)] else []) +
    (if !(metric.Str? && metric.s in LightstepMetrics) then [Text(MetricInvalid)] else [])
  }

  /** `validate_lightstep_source` */
  method ValidateLightstepSource(source: Dict, act: Action)
    modifies act
    ensures act.errors == old(act.errors) + LightstepMessages(source)
  {
    var missing := MissingFields(source, LightstepRequired);
    if missing != {} {
      act.Error(Missing(missing, SourceDefinition));
    }
    var metric := GetOr(source, "metric", Str(""));
    if !(metric.Str? && metric.s in LightstepMetrics) {
      act.Error(Text(MetricInvalid));
    }
  }

  /** A Lightstep source passes exactly with a "stream-id" and one of the six metric names. */
  lemma LightstepMessagesMeaning(source: Dict)
    ensures LightstepMessages(source) == [] <==>
      "stream-id" in Keys(source) && "metric" in Keys(source) &&
      Get(source, "metric").value.Str? && Get(source, "metric").value.s in LightstepMetrics
  {
    var metric := GetOr(source, "metric", Str(""));
    LightstepMessagesEmpty(source);
    MissingFieldsEmpty(source, LightstepRequired);
    if "metric" in Keys(source) {
      assert metric == Get(source, "metric").value;
    } else {
      NoEmptyMetric();
    }
  }

  lemma LightstepMessagesEmpty(source: Dict)
    ensures LightstepMessages(source) == [] <==>
      MissingFields(source, LightstepRequired) == {} && GetOr(source, "metric", Str("")).Str? &&
      GetOr(source, "metric", Str("")).s in LightstepMetrics
  {
  }

  lemma NoEmptyMetric()
    ensures "" !in LightstepMetrics
  {
    assert forall m :: m in LightstepMetrics ==> |m| > 0;
  }

  const ClientLightstepSource: Dict := [("stream-id", Str("s")), ("metric", Str("p99"))]

  /**
   * The client and the server disagree on Lightstep sources: of the client's six metric
   * names only "error-count" names a server metric, and a source the client accepts is
   * refused by the server, which reads "stream_id".
   */
  lemma LightstepValidatorsDisagree()
    ensures forall m :: m in LightstepMetrics ==> (Lightstep.FromStr(m).Some? <==> m == "error-count")
    ensures LightstepMessages(ClientLightstepSource) == []
    ensures Lightstep.ValidateConfig(ClientLightstepSource).Err?
  {
    ClientMetricNames();
    ClientLightstepSourceJudged();
  }

  /** Of the client's metric names only "error-count" names a server metric. */
  lemma ClientMetricNames()
    ensures forall m :: m in LightstepMetrics ==> (Lightstep.FromStr(m).Some? <==> m == "error-count")
  {
    assert ReplaceChar(Upper("ops-count"), '-', '_') == "OPS_COUNT";
    assert ReplaceChar(Upper("error-count"), '-', '_') == "ERROR_COUNT";
    assert ReplaceChar(Upper("p50"), '-', '_') == "P50";
    assert ReplaceChar(Upper("p75"), '-', '_') == "P75";
    assert ReplaceChar(Upper("p90"), '-', '_') == "P90";
    assert ReplaceChar(Upper("p99"), '-', '_') == "P99";
    assert Lightstep.MemberName(Lightstep.ErrorCount) == "ERROR_COUNT";
  }

  /** The client accepts its sample source; the server refuses it. */
  lemma ClientLightstepSourceJudged()
    ensures LightstepMessages(ClientLightstepSource) == []
    ensures Lightstep.ValidateConfig(ClientLightstepSource).Err?
  {
    MissingFieldsEmpty(ClientLightstepSource, LightstepRequired);
    assert "stream_id" !in Keys(ClientLightstepSource);
  }

  // ---------------------------------------------------------------------------------------
  // validate_sli_source, validate_sli

  /** `source.get("type", "zmon")` */
  function SourceType(source: Dict): Value {
    GetOr(source, "type", Str("zmon"))
  }

  function SliSourceValidation(source: Dict, alerts: seq<Dict>, ignoreKeys: bool): Outcome {
    var t := SourceType(source);
    var m := if t != Str("lightstep") && t != Str("zmon") then [Text(SourceTypeInvalid)] else [];
    if t == Str("lightstep") then Outcome(m + LightstepMessages(source), Ok(()))
    else Outcome(m + ZmonStructure(source).messages, ZmonResult(source, alerts, ignoreKeys))
  }

  /** `validate_sli_source` */
  method ValidateSliSource(source: Dict, alerts: seq<Dict>, ignoreKeys: bool, act: Action)
    returns (r: Result<(), Failure>)
    modifies act
    ensures act.errors == old(act.errors) + SliSourceValidation(source, alerts, ignoreKeys).messages
    ensures r == SliSourceValidation(source, alerts, ignoreKeys).result
  {
    ghost var start := act.errors;
    var t := SourceType(source);
    if t != Str("lightstep") && t != Str("zmon") {
      act.Error(Text(SourceTypeInvalid));
    }
    ghost var m := act.errors[|start|..];
    assert act.errors == start + m;
    if t == Str("lightstep") {
      ValidateLightstepSource(source, act);
      AppendAssoc(start, m, LightstepMessages(source));
      return Ok(());
    }
    r := ValidateZmonSource(source, alerts, ignoreKeys, act);
    AppendAssoc(start, m, ZmonStructure(source).messages);
  }

  /**
   * Dispatch on the source type: "lightstep" runs the Lightstep checks, an absent type and
   * "zmon" the ZMON checks, and any other type records its error and still runs the ZMON checks.
   */
  lemma SliSourceDispatch(source: Dict, alerts: seq<Dict>, ignoreKeys: bool)
    ensures SourceType(source) == Str("lightstep") ==>
      SliSourceValidation(source, alerts, ignoreKeys) == Outcome(LightstepMessages(source), Ok(()))
    ensures "type" !in Keys(source) || SourceType(source) == Str("zmon") ==>
      SliSourceValidation(source, alerts, ignoreKeys) ==
        Outcome(ZmonStructure(source).messages, ZmonResult(source, alerts, ignoreKeys))
    ensures SourceType(source) != Str("lightstep") && SourceType(source) != Str("zmon") ==>
      SliSourceValidation(source, alerts, ignoreKeys) ==
        Outcome([Text(SourceTypeInvalid)] + ZmonStructure(source).messages, ZmonResult(source, alerts, ignoreKeys))
  {
  }


  function SliFieldMessages(sli: Dict): seq<Message> {
    (if !Truthy(GetOr(sli, "name", Null)) then [Text(NameMissing)] else []) +
    (if !Truthy(GetOr(sli, "unit", Null)) then [Text(UnitMissing)] else []) +
    (if "source" !in Keys(sli) then [Text(SourceMissing)] else [])
  }

  /**
   * `validate_sli`: the field checks, then the source checks on `sli.get('source', {})`; a
   * client error is recorded and ends the command (`fatal_error` exits).
   */
  function SliValidation(sli: Dict, alerts: seq<Dict>): Outcome {
    var source := GetOr(sli, "source", Object([]));
    if !source.Object? then Outcome(SliFieldMessages(sli), Err(Raised("AttributeError")))
    else
      var o := SliSourceValidation(source.entries, alerts, false);
      if o.result.Err? && !o.result.error.Raised? then
        Outcome(SliFieldMessages(sli) + o.messages + [Fatal(o.result.error)], Err(Raised("SystemExit")))
      else Outcome(SliFieldMessages(sli) + o.messages, o.result)
  }

  /** `validate_sli` */
  method ValidateSli(sli: Dict, alerts: seq<Dict>, act: Action) returns (r: Result<(), Failure>)
    modifies act
    ensures act.errors == old(act.errors) + SliValidation(sli, alerts).messages
    ensures r == SliValidation(sli, alerts).result
  {
    ghost var start := act.errors;
    CheckSliFields(sli, act);
    var source := GetOr(sli, "source", Object([]));
    if !source.Object? {
      return Err(Raised("AttributeError"));
    }
    r := ValidateSliSource(source.entries, alerts, false, act);
    ghost var fm, o := SliFieldMessages(sli), SliSourceValidation(source.entries, alerts, false);
    AppendAssoc(start, fm, o.messages);
    if r.Err? && !r.error.Raised? {
      act.Error(Fatal(r.error));
      AppendAssoc(start, fm + o.messages, [Fatal(r.error)]);
      r := Err(Raised("SystemExit"));
    }
  }

  method CheckSliFields(sli: Dict, act: Action)
    modifies act
    ensures act.errors == old(act.errors) + SliFieldMessages(sli)
  {
    if !Truthy(GetOr(sli, "name", Null)) {
      act.Error(Text(NameMissing));
    }
    if !Truthy(GetOr(sli, "unit", Null)) {
      act.Error(Text(UnitMissing));
    }
    if "source" !in Keys(sli) {
      act.Error(Text(SourceMissing));
    }
  }

  /**
   * An SLI passes without a message exactly when it has a truthy name and unit, a dict
   * source, and that source passes; every client error is recorded and exits.
   */
  lemma SliValidationMeaning(sli: Dict, alerts: seq<Dict>)
    ensures SliValidation(sli, alerts) == Outcome([], Ok(())) <==>
      Truthy(GetOr(sli, "name", Null)) && Truthy(GetOr(sli, "unit", Null)) &&
      "source" in Keys(sli) && Get(sli, "source").value.Object? &&
      SliSourceValidation(Get(sli, "source").value.entries, alerts, false) == Outcome([], Ok(()))
    ensures SliValidation(sli, alerts).result.Err? ==> SliValidation(sli, alerts).result.error.Raised?
  {
  }

  // ---------------------------------------------------------------------------------------
  // sli query

  /** `sli query` stops when both start and end are given (nonzero) and start <= end. */
  function QueryRefused(start: int, end: Option<int>): bool {
    start != 0 && end.GetOr(0) != 0 && start <= end.GetOr(0)
  }

  /** `Client.sli_query`'s body: a falsy start or end is left out. */
  function QueryBody(start: int, end: Option<int>): Dict {
    (if start != 0 then [("start", Int(start))] else []) +
    (if end.GetOr(0) != 0 then [("end", Int(end.GetOr(0)))] else [])
  }

  /** An integer the server reads from the body, if present. */
  function BodyInt(body: Dict, k: string): Option<int> {
    var v := Get(body, k);
    if v.Some? && v.value.Int? then Some(v.value.i) else None
  }

  /**
   * Of the queries the client sends, the server refuses only those with no start and those
   * reaching back a negative number of minutes with no end; the client itself refuses an
   * end that is not before the start.
   */
  lemma QueryAccepted(start: int, end: Option<int>)
    ensures QueryRefused(start, end) <==> start != 0 && end.GetOr(0) != 0 && end.GetOr(0) >= start
    ensures !QueryRefused(start, end) ==>
      (SliApi.QueryValidate(BodyInt(QueryBody(start, end), "start"), BodyInt(QueryBody(start, end), "end")).Ok?
       <==> start > 0 || (start != 0 && end.GetOr(0) != 0))
  {
    var body, e := QueryBody(start, end), end.GetOr(0);
    assert "start" != "end";
    if start != 0 && e != 0 {
      assert body == [("start", Int(start)), ("end", Int(e))];
      assert body[1..] == [("end", Int(e))];
      assert Get(body[1..], "end") == Some(Int(e));
      assert Get(body, "end") == Some(Int(e));
      assert BodyInt(body, "start") == Some(start) && BodyInt(body, "end") == Some(e);
    } else if start != 0 {
      assert body == [("start", Int(start))];
      assert BodyInt(body, "start") == Some(start) && BodyInt(body, "end") == None;
    } else {
      assert BodyInt(body, "start") == None;
    }
  }

  /** The client refuses equal start and end, which the server accepts. */
  lemma QueryEqualBounds(n: int)
    requires n != 0
    ensures QueryRefused(n, Some(n))
    ensures SliApi.QueryValidate(Some(n), Some(n)).Ok?
  {
  }
}
