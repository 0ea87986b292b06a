/**
 * The first command-line client (`cli.py`): the checks `data-source create`, `slo create`,
 * `sli update` and `slo delete` make before anything is sent, and its search for the SLI
 * keys in a check's alert data, which looks at top-level keys only and keeps the keys of
 * the last non-empty dict it saw. As in `SlrCli`, the ZMON lookups are inputs: one
 * entity-to-value dict per alert of the check.
 */
module LegacyCli {
  import opened Wrappers
  import opened PyStr
  import opened OrderedDict
  import opened PyValue
  import opened CliAction
  import SlrCli
  import Zmon
  import Kairos

  /** `AGG_TYPES` of this client. */
  const AggTypes: seq<string> := ["average", "weighted", "sum", "minimum", "maximum"]

  /**
   * Every aggregation type this client accepts is one the server and the newer client
   * accept, but it refuses "min" and "max", which both of them accept.
   */
  lemma AggTypesNarrower()
    ensures forall t :: t in AggTypes ==> t in Kairos.AggregationTypes && t in SlrCli.AggTypes
    ensures "min" !in AggTypes && "max" !in AggTypes
    ensures "min" in Kairos.AggregationTypes && "max" in Kairos.AggregationTypes
    ensures "min" in SlrCli.AggTypes && "max" in SlrCli.AggTypes
  {
  }

  // ---------------------------------------------------------------------------------------
  // validate_sli: the key search

  /** A value Python can hash: anything but a list or a dict. */
  predicate Hashable(v: Value) {
    !v.Array? && !v.Object?
  }

  /** Strings as Python values. */
  function Strs(ks: seq<string>): (r: seq<Value>)
    ensures |r| == |ks|
    ensures forall i :: 0 <= i < |ks| ==> r[i] == Str(ks[i])
  {
    seq(|ks|, i requires 0 <= i < |ks| => Str(ks[i]))
  }

  /**
   * What `set(keys)` holds: a list's items, a string's characters, a dict's keys. Anything
   * that cannot be iterated, and a list with an unhashable item, raises TypeError.
   */
  function KeyItems(v: Value): (r: Result<seq<Value>, Failure>)
    ensures r.Err? ==> r.error == Raised("TypeError")
    ensures r.Ok? ==> forall k :: k in r.value ==> Hashable(k)
  {
    match v
    case Array(items) => if forall k :: k in items ==> Hashable(k) then Ok(items) else Err(Raised("TypeError"))
    case Str(s) => Ok(Strs(seq(|s|, i requires 0 <= i < |s| => [s[i]])))
    case Object(entries) => Ok(Strs(Keys(entries)))
    case _ => Err(Raised("TypeError"))
  }

  /**
   * One entity's data is a dict and `set(keys) - set(data_keys)` is empty: every key is a
   * string among the dict's top-level keys (a key of any other type equals no string).
   */
  predicate HasTopKeys(data: Value, keys: seq<Value>) {
    data.Object? && forall k :: k in keys ==> k.Str? && k.s in Keys(data.entries)
  }

  /** Some entity of one alert has the keys. */
  predicate TopCoveredIn(values: Dict, keys: seq<Value>) {
    exists j :: 0 <= j < |values| && HasTopKeys(values[j].1, keys)
  }

  /** Some entity of some alert has the keys. */
  predicate TopKeysFound(alerts: seq<Dict>, keys: seq<Value>) {
    exists i :: 0 <= i < |alerts| && TopCoveredIn(alerts[i], keys)
  }

  /** Some entity of one alert has dict data, where `set(keys)` is first computed. */
  predicate HasDict(values: Dict) {
    exists j :: 0 <= j < |values| && values[j].1.Object?
  }

  predicate SomeDict(alerts: seq<Dict>) {
    exists i :: 0 <= i < |alerts| && HasDict(alerts[i])
  }

  /** The keys of the last entity whose data is a non-empty dict, or `sample` if there is none. */
  function LastSample(values: Dict, sample: set<string>): set<string>
    decreases |values|
  {
    if |values| == 0 then sample
    else
      var data := Last(values).1;
      if data.Object? && |data.entries| > 0 then set k | k in Keys(data.entries)
      else LastSample(values[..|values| - 1], sample)
  }

  /** The keys the failure message lists: those of the last non-empty dict of all alerts. */
  function AlertsSample(alerts: seq<Dict>): set<string>
    decreases |alerts|
  {
    if |alerts| == 0 then {} else LastSample(Last(alerts), AlertsSample(alerts[..|alerts| - 1]))
  }

  /**
   * What the search of `validate_sli` comes to: keys that cannot be made a set raise as soon
   * as an entity with dict data is reached; otherwise it succeeds exactly when some entity
   * has the keys, and fails naming the keys of the last non-empty dict seen.
   */
  function TopKeySearch(keys: Result<seq<Value>, Failure>, alerts: seq<Dict>): Result<(), Failure> {
    if keys.Err? && SomeDict(alerts) then Err(keys.error)
    else if keys.Ok? && TopKeysFound(alerts, keys.value) then Ok(())
    else Err(KeysNotFound(AlertsSample(alerts)))
  }

  /** The search of `validate_sli`: alert by alert, entity by entity, until an entity has the keys. */
  method FindTopKeys(keys: Result<seq<Value>, Failure>, alerts: seq<Dict>) returns (r: Result<(), Failure>)
    ensures r == TopKeySearch(keys, alerts)
  {
    var sliExists := false;
    var sample: set<string> := {};
    var i := 0;
    while i < |alerts| && !sliExists
      invariant 0 <= i <= |alerts|
      invariant sliExists ==> keys.Ok? && TopKeysFound(alerts, keys.value)
      invariant !sliExists ==> !(keys.Err? && SomeDict(alerts[..i]))
      invariant !sliExists ==> !(keys.Ok? && TopKeysFound(alerts[..i], keys.value))
      invariant !sliExists ==> sample == AlertsSample(alerts[..i])
    {
      var raised;
      sliExists, sample, raised := SearchTopKeys(keys, alerts[i], sample);
      if raised {
        return Err(keys.error);
      }
      if !sliExists {
        assert alerts[..i + 1][..i] == alerts[..i];
        assert forall i' :: 0 <= i' < i ==> alerts[..i + 1][i'] == alerts[..i][i'];
      }
      i := i + 1;
    }
    if sliExists {
      return Ok(());
    }
    assert alerts[..i] == alerts;
    return Err(KeysNotFound(sample));
  }

  /** The loop over one alert's entities. */
  method SearchTopKeys(keys: Result<seq<Value>, Failure>, values: Dict, sample: set<string>)
    returns (found: bool, seen: set<string>, raised: bool)
    ensures raised <==> keys.Err? && HasDict(values)
    ensures !raised ==> (found <==> keys.Ok? && TopCoveredIn(values, keys.value))
    ensures !raised && !found ==> seen == LastSample(values, sample)
  {
    seen := sample;
    var j := 0;
    while j < |values|
      invariant 0 <= j <= |values|
      invariant keys.Err? ==> !HasDict(values[..j])
      invariant keys.Ok? ==> !TopCoveredIn(values[..j], keys.value)
      invariant seen == LastSample(values[..j], sample)
    {
      assert values[..j + 1][..j] == values[..j];
      var data := values[j].1;
      if data.Object? {
        var dataKeys := Keys(data.entries);
        if |dataKeys| > 0 {
          seen := set k | k in dataKeys;
        }
        if keys.Err? {
          return false, seen, true;
        }
        if forall k :: k in keys.value ==> k.Str? && k.s in dataKeys {
          assert HasTopKeys(values[j].1, keys.value);
          return true, seen, false;
        }
      }
      assert keys.Ok? ==> !HasTopKeys(values[j].1, keys.value);
      j := j + 1;
    }
    assert values[..|values|] == values;
    return false, seen, false;
  }

  /** Every entity's dict data is already flat: no nested dict, no repeated key. */
  predicate FlatData(alerts: seq<Dict>) {
    forall i, j :: 0 <= i < |alerts| && 0 <= j < |alerts[i]| && alerts[i][j].1.Object? ==>
      SlrCli.Leaves(alerts[i][j].1.entries) && DistinctKeys(alerts[i][j].1.entries)
  }

  /**
   * On flat data the two clients' searches agree for string keys: looking at top-level keys
   * finds them exactly when looking at flattened keys does.
   */
  lemma TopKeysAgreeOnFlatData(alerts: seq<Dict>, keys: seq<string>)
    requires FlatData(alerts)
    ensures TopKeysFound(alerts, Strs(keys)) <==> SlrCli.KeysFound(alerts, keys)
  {
    forall i, j | 0 <= i < |alerts| && 0 <= j < |alerts[i]|
      ensures HasTopKeys(alerts[i][j].1, Strs(keys)) <==> SlrCli.Covers(alerts[i][j].1, keys)
    {
      var data := alerts[i][j].1;
      if data.Object? {
        SlrCli.FlattenFlat(data.entries);
        StrsAmong(keys, Keys(data.entries));
      }
    }
  }

  lemma StrsAmong(keys: seq<string>, dataKeys: seq<string>)
    ensures (forall k :: k in Strs(keys) ==> k.Str? && k.s in dataKeys) <==> (forall k :: k in keys ==> k in dataKeys)
  {
    var s := Strs(keys);
    if forall k :: k in s ==> k.Str? && k.s in dataKeys {
      forall k | k in keys
        ensures k in dataKeys
      {
        var i :| 0 <= i < |keys| && keys[i] == k;
        assert s[i] in s;
      }
    }
  }

  const NestedAlerts: seq<Dict> := [[("host", SlrCli.Nested)]]

  /** On nested data they do not: a dotted key is found by the newer client only. */
  lemma NestedKeysMissed()
    ensures SlrCli.KeysFound(NestedAlerts, ["a.b.c"])
    ensures !TopKeysFound(NestedAlerts, Strs(["a.b.c"]))
  {
    SlrCli.FlattenExamples();
    assert Keys(SlrCli.Flatten(SlrCli.Nested)) == ["a.b.c"];
    assert SlrCli.Covers(NestedAlerts[0][0].1, ["a.b.c"]);
    assert "a.b.c" !in Keys(SlrCli.Nested.entries);
    assert Strs(["a.b.c"])[0] == Str("a.b.c");
  }

  /** Where the newer client reads string keys, this one reads the same keys as strings. */
  lemma KeyItemsVersions(v: Value)
    requires SlrCli.KeyStrings(v).Ok?
    ensures KeyItems(v) == Ok(Strs(SlrCli.KeyStrings(v).value))
  {
    if v.Array? {
      StrItemsStrs(v.items);
    }
  }

  lemma {:induction false} StrItemsStrs(items: seq<Value>)
    requires SlrCli.StrItems(items).Some?
    ensures items == Strs(SlrCli.StrItems(items).value)
    decreases |items|
  {
    if |items| > 0 {
      StrItemsStrs(items[1..]);
      assert items == [items[0]] + items[1..];
    }
  }

  /**
   * `validate_sli`: `int(check_id)`, a check with alerts, then the key search; the check
   * definition is taken to exist. A failed search is the client's own error.
   */
  function KeyCheck(definition: Dict, alerts: seq<Dict>): Result<(), Failure>
    requires "check_id" in Keys(definition) && "keys" in Keys(definition)
  {
    var checkId := IntOf(Get(definition, "check_id").value);
    if checkId.Err? then Err(Raised(checkId.error))
    else if |alerts| == 0 then Err(NoAlerts)
    else TopKeySearch(KeyItems(Get(definition, "keys").value), alerts)
  }

  /** `validate_sli` */
  method ValidateSli(definition: Dict, alerts: seq<Dict>) returns (r: Result<(), Failure>)
    requires "check_id" in Keys(definition) && "keys" in Keys(definition)
    ensures r == KeyCheck(definition, alerts)
  {
    var checkId := IntOf(Get(definition, "check_id").value);
    if checkId.Err? {
      return Err(Raised(checkId.error));
    }
    if |alerts| == 0 {
      return Err(NoAlerts);
    }
    r := FindTopKeys(KeyItems(Get(definition, "keys").value), alerts);
  }

  const IntKeyDefinition: Dict := [("check_id", Int(7)), ("keys", Array([Int(1)]))]
  const HostAlerts: seq<Dict> := [[("host", Object([("a", Int(1))]))]]

  /**
   * A key list `[1]` is refused by the newer client with a TypeError; here the set
   * difference simply leaves 1 missing, so the search fails and the command ends fatally.
   */
  lemma IntKeyNotFound()
    ensures SlrCli.KeyStrings(Get(IntKeyDefinition, "keys").value) == Err(Raised("TypeError"))
    ensures KeyCheck(IntKeyDefinition, HostAlerts) == Err(KeysNotFound({"a"}))
    ensures KeyCheckOutcome([], IntKeyDefinition, HostAlerts) ==
      Command([Fatal(KeysNotFound({"a"}))], Err(Raised("SystemExit")))
  {
    assert Get(IntKeyDefinition, "keys") == Some(Array([Int(1)]));
    assert Get(IntKeyDefinition, "check_id") == Some(Int(7));
    assert HostAlerts[0][0].1.Object?;
    assert KeyItems(Array([Int(1)])) == Ok([Int(1)]);
    assert Int(1) in [Int(1)] && !Int(1).Str?;
    assert !TopCoveredIn(HostAlerts[0], [Int(1)]);
    assert !TopKeysFound(HostAlerts, [Int(1)]);
    assert Keys(HostAlerts[0][0].1.entries) == ["a"];
    assert LastSample(HostAlerts[0], {}) == {"a"};
    assert AlertsSample(HostAlerts) == LastSample(HostAlerts[0], {});
  }

  /** Keys that are not a set raise only once dict data is reached; before that they are never read. */
  lemma KeyItemsRaiseAtDict(definition: Dict, alerts: seq<Dict>)
    requires "check_id" in Keys(definition) && "keys" in Keys(definition)
    requires IntOf(Get(definition, "check_id").value).Ok? && |alerts| > 0
    requires KeyItems(Get(definition, "keys").value).Err?
    ensures KeyCheck(definition, alerts) == Err(Raised("TypeError")) <==> SomeDict(alerts)
    ensures !SomeDict(alerts) ==> KeyCheck(definition, alerts) == Err(KeysNotFound({}))
  {
    if !SomeDict(alerts) {
      NoDictNoSample(alerts);
    }
  }

  lemma {:induction false} NoDictNoSample(alerts: seq<Dict>)
    requires !SomeDict(alerts)
    ensures AlertsSample(alerts) == {}
    decreases |alerts|
  {
    if |alerts| > 0 {
      var init := alerts[..|alerts| - 1];
      assert !SomeDict(init) by {
        forall i | 0 <= i < |init| ensures !HasDict(init[i]) {
          assert init[i] == alerts[i];
        }
      }
      NoDictNoSample(init);
      NoDictLastSample(Last(alerts), {});
    }
  }

  lemma {:induction false} NoDictLastSample(values: Dict, sample: set<string>)
    requires !HasDict(values)
    ensures LastSample(values, sample) == sample
    decreases |values|
  {
    if |values| > 0 {
      var init := values[..|values| - 1];
      assert !HasDict(init) by {
        forall j | 0 <= j < |init| ensures !init[j].1.Object? {
          assert init[j] == values[j];
        }
      }
      assert !Last(values).1.Object?;
      NoDictLastSample(init, sample);
    }
  }

  // ---------------------------------------------------------------------------------------
  // data-source create

  /** The messages a command records, and whether it ends by sending its request. */
  datatype Command = Command(messages: seq<Message>, result: Result<bool, Failure>)

  const DefinitionRequired: seq<string> := ["aggregation", "check_id", "keys"]
  const DataSourceDefinition: string := "data-source definition"

  function DataSourceMessages(ds: Dict): seq<Message> {
    (if "sli_name" !in Keys(ds) then [Text(DataSourceNameMissing)] else []) +
    (if "definition" !in Keys(ds) then [Text(DefinitionMissing)] else [])
  }

  function DefinitionMessages(definition: Dict): seq<Message> {
    var missing := MissingFields(definition, DefinitionRequired);
    (if missing != {} then [Missing(missing, DataSourceDefinition)] else []) +
    (if "keys" in Keys(definition) && !Truthy(Get(definition, "keys").value) then [Text(DefinitionKeysEmpty)] else [])
  }

  function DefinitionAggregationMessages(definition: Dict, aggregation: Dict): seq<Message> {
    var aggType := GetOr(aggregation, "type", Null);
    if "aggregation" !in Keys(definition) then []
    else
      (if !(aggType.Str? && aggType.s in AggTypes) then [Text(DefinitionTypeInvalid)] else []) +
      (if aggType == Str("weighted") && !Truthy(GetOr(aggregation, "weight_keys", Null))
       then [Text(DefinitionWeightKeysMissing)] else [])
  }

  /** The remote check runs only for a definition with a check_id and non-empty keys. */
  predicate RemoteChecked(definition: Dict) {
    "check_id" in Keys(definition) && "keys" in Keys(definition) && Truthy(Get(definition, "keys").value)
  }

  /**
   * `data-source create`: the structural checks in order (a non-dict definition or
   * aggregation stops them with an AttributeError), the key check when it applies, whose
   * client errors are recorded and end the command, and the request only without errors.
   */
  function DataSourceCreation(ds: Dict, alerts: seq<Dict>): Command {
    var definition := GetOr(ds, "definition", Object([]));
    if !definition.Object? then Command(DataSourceMessages(ds), Err(Raised("AttributeError")))
    else
      var head := DataSourceMessages(ds) + DefinitionMessages(definition.entries);
      var aggregation := GetOr(definition.entries, "aggregation", Object([]));
      if !aggregation.Object? then Command(head, Err(Raised("AttributeError")))
      else
        KeyCheckOutcome(head + DefinitionAggregationMessages(definition.entries, aggregation.entries), definition.entries, alerts)
  }

  /** The key check when the definition calls for it, else nothing to report. */
  function CheckedKeys(definition: Dict, alerts: seq<Dict>): Result<(), Failure> {
    if RemoteChecked(definition) then KeyCheck(definition, alerts) else Ok(())
  }

  /** The command ends by sending its request exactly when nothing was recorded and the key check passed. */
  lemma KeyCheckOutcomeMeaning(m: seq<Message>, definition: Dict, alerts: seq<Dict>)
    ensures KeyCheckOutcome(m, definition, alerts).result == Ok(true) <==> m == [] && CheckedKeys(definition, alerts) == Ok(())
    ensures KeyCheckOutcome(m, definition, alerts).result == Ok(true) ==> KeyCheckOutcome(m, definition, alerts).messages == []
  {
  }

  /**
   * After the structural messages `m`: the key check when it applies, whose client errors
   * are recorded and end the command, and the request only without errors.
   */
  function KeyCheckOutcome(m: seq<Message>, definition: Dict, alerts: seq<Dict>): Command {
    var check := CheckedKeys(definition, alerts);
    if check.Err? && check.error.Raised? then Command(m, Err(check.error))
    else if check.Err? then Command(m + [Fatal(check.error)], Err(Raised("SystemExit")))
    else Command(m, Ok(|m| == 0))
  }

  /** `data-source create` */
  method DataSourceCreate(ds: Dict, alerts: seq<Dict>) returns (act: Action, r: Result<bool, Failure>)
    ensures fresh(act)
    ensures act.errors == DataSourceCreation(ds, alerts).messages
    ensures r == DataSourceCreation(ds, alerts).result
  {
    act := new Action();
    RecordDataSourceFields(ds, act);
    assert act.errors == DataSourceMessages(ds);
    var definition := GetOr(ds, "definition", Object([]));
    if !definition.Object? {
      return act, Err(Raised("AttributeError"));
    }
    RecordDefinition(definition.entries, act);
    ghost var head := DataSourceMessages(ds) + DefinitionMessages(definition.entries);
    assert act.errors == head;
    var aggregation := GetOr(definition.entries, "aggregation", Object([]));
    if !aggregation.Object? {
      return act, Err(Raised("AttributeError"));
    }
    RecordDefinitionAggregation(definition.entries, aggregation.entries, act);
    assert act.errors == head + DefinitionAggregationMessages(definition.entries, aggregation.entries);
    assert DataSourceCreation(ds, alerts) == KeyCheckOutcome(act.errors, definition.entries, alerts);
    r := RecordKeyCheck(definition.entries, alerts, act);
  }

  method RecordKeyCheck(definition: Dict, alerts: seq<Dict>, act: Action) returns (r: Result<bool, Failure>)
    modifies act
    ensures act.errors == KeyCheckOutcome(old(act.errors), definition, alerts).messages
    ensures r == KeyCheckOutcome(old(act.errors), definition, alerts).result
  {
    if RemoteChecked(definition) {
      var check := ValidateSli(definition, alerts);
      if check.Err? && check.error.Raised? {
        return Err(check.error);
      }
      if check.Err? {
        act.Error(Fatal(check.error));
        return Err(Raised("SystemExit"));
      }
    }
    return Ok(act.errors == []);
  }

  method RecordDataSourceFields(ds: Dict, act: Action)
    modifies act
    ensures act.errors == old(act.errors) + DataSourceMessages(ds)
  {
    if "sli_name" !in Keys(ds) {
      act.Error(Text(DataSourceNameMissing));
    }
    if "definition" !in Keys(ds) {
      act.Error(Text(DefinitionMissing));
    }
  }

  method RecordDefinition(definition: Dict, act: Action)
    modifies act
    ensures act.errors == old(act.errors) + DefinitionMessages(definition)
  {
    var missing := MissingFields(definition, DefinitionRequired);
    if missing != {} {
      act.Error(Missing(missing, DataSourceDefinition));
    }
    if "keys" in Keys(definition) && !Truthy(Get(definition, "keys").value) {
      act.Error(Text(DefinitionKeysEmpty));
    }
  }

  method RecordDefinitionAggregation(definition: Dict, aggregation: Dict, act: Action)
    modifies act
    ensures act.errors == old(act.errors) + DefinitionAggregationMessages(definition, aggregation)
  {
    var aggType := GetOr(aggregation, "type", Null);
    if "aggregation" in Keys(definition) {
      if !(aggType.Str? && aggType.s in AggTypes) {
        act.Error(Text(DefinitionTypeInvalid));
      }
      if aggType == Str("weighted") && !Truthy(GetOr(aggregation, "weight_keys", Null)) {
        act.Error(Text(DefinitionWeightKeysMissing));
      }
    }
  }

  /** The structure a created data source has. */
  predicate WellFormedDefinition(definition: Dict) {
    (forall f :: f in DefinitionRequired ==> f in Keys(definition)) &&
    Truthy(Get(definition, "keys").value) &&
    Get(definition, "aggregation").value.Object? &&
    var aggregation := Get(definition, "aggregation").value.entries;
    var aggType := GetOr(aggregation, "type", Null);
    aggType.Str? && aggType.s in AggTypes &&
    (aggType == Str("weighted") ==> Truthy(GetOr(aggregation, "weight_keys", Null)))
  }

  /**
   * A data source is sent exactly when it has an sli_name and a dict definition with the
   * required fields, non-empty keys, a known aggregation type (with weight_keys when
   * weighted), and its keys are found in the check's alert data.
   */
  lemma DataSourceCreationMeaning(ds: Dict, alerts: seq<Dict>)
    ensures DataSourceCreation(ds, alerts).result == Ok(true) <==>
      "sli_name" in Keys(ds) && "definition" in Keys(ds) && Get(ds, "definition").value.Object? &&
      WellFormedDefinition(Get(ds, "definition").value.entries) &&
      CheckedKeys(Get(ds, "definition").value.entries, alerts) == Ok(())
    ensures DataSourceCreation(ds, alerts).result == Ok(true) ==> DataSourceCreation(ds, alerts).messages == []
  {
    var definition := GetOr(ds, "definition", Object([]));
    if definition.Object? {
      var d := definition.entries;
      var aggregation := GetOr(d, "aggregation", Object([]));
      if aggregation.Object? {
        var m := DataSourceMessages(ds) + DefinitionMessages(d) + DefinitionAggregationMessages(d, aggregation.entries);
        assert DataSourceCreation(ds, alerts) == KeyCheckOutcome(m, d, alerts);
        KeyCheckOutcomeMeaning(m, d, alerts);
        StructuralMessagesEmpty(ds, d, aggregation.entries);
      } else {
        assert DataSourceCreation(ds, alerts).result.Err?;
        assert !WellFormedDefinition(d);
      }
    }
  }

  /** No structural message is recorded exactly when the data source is well formed. */
  lemma StructuralMessagesEmpty(ds: Dict, d: Dict, aggregation: Dict)
    requires GetOr(ds, "definition", Object([])) == Object(d)
    requires GetOr(d, "aggregation", Object([])) == Object(aggregation)
    ensures DataSourceMessages(ds) + DefinitionMessages(d) + DefinitionAggregationMessages(d, aggregation) == [] <==>
      "sli_name" in Keys(ds) && "definition" in Keys(ds) && WellFormedDefinition(d)
    ensures DataSourceMessages(ds) + DefinitionMessages(d) + DefinitionAggregationMessages(d, aggregation) == [] ==>
      RemoteChecked(d)
  {
    MissingFieldsEmpty(d, DefinitionRequired);
    assert "aggregation" in DefinitionRequired && "check_id" in DefinitionRequired && "keys" in DefinitionRequired;
  }

  /** Without a check_id or non-empty keys the alert data is never looked at. */
  lemma DataSourceCreationLocal(ds: Dict, alerts: seq<Dict>, others: seq<Dict>)
    requires "definition" in Keys(ds) && Get(ds, "definition").value.Object?
    requires !RemoteChecked(Get(ds, "definition").value.entries)
    ensures DataSourceCreation(ds, alerts) == DataSourceCreation(ds, others)
    ensures DataSourceCreation(ds, alerts).result.Ok? ==> DataSourceCreation(ds, alerts).result == Ok(false)
  {
    var definition := Get(ds, "definition").value.entries;
    MissingFieldsEmpty(definition, DefinitionRequired);
    assert "check_id" in DefinitionRequired && "keys" in DefinitionRequired;
  }

  /** Every data source this client sends has a definition the server's ZMON source accepts. */
  lemma CreatedDefinitionsAccepted(ds: Dict, alerts: seq<Dict>)
    requires DataSourceCreation(ds, alerts).result == Ok(true)
    ensures Zmon.ValidateConfig(Get(ds, "definition").value.entries).Ok?
  {
    DataSourceCreationMeaning(ds, alerts);
    WellFormedAccepted(Get(ds, "definition").value.entries);
  }

  /** The server accepts every definition of the shape this client demands. */
  lemma WellFormedAccepted(definition: Dict)
    requires WellFormedDefinition(definition)
    ensures Zmon.ValidateConfig(definition).Ok?
  {
    AggTypesNarrower();
    assert DefinitionRequired == Zmon.RequiredKeys;
    assert Zmon.HasRequiredKeys(definition);
    assert Zmon.KeysGiven(definition);
    var aggregation := Get(definition, "aggregation").value.entries;
    assert "type" in Keys(aggregation);
    assert Zmon.AggregationGiven(definition);
    assert Zmon.AggregationType(definition) == Some(GetOr(aggregation, "type", Null).s);
    assert Zmon.TypeValid(definition);
    assert Zmon.AggregationType(definition).value == "weighted" ==> Zmon.WeightKeysGiven(definition);
  }

  // ---------------------------------------------------------------------------------------
  // slo create

  function TargetNameMessage(target: Dict): seq<Message> {
    if "sli_name" !in Keys(target) then [Text(TargetNameMissing)] else []
  }

  function SloCreationMessages(slo: Dict): seq<Message>
    requires SlrCli.TargetsShaped(slo)
  {
    (if "title" !in Keys(slo) then [Text(TitleMissing)] else []) +
    (if "targets" !in Keys(slo) then [Text(TargetsMissing)] else []) +
    ConcatMap(TargetNameMessage, SlrCli.TargetDicts(slo))
  }

  /** `slo create`: the checks, then the request only without errors. */
  method SloCreate(slo: Dict) returns (act: Action, posted: bool)
    requires SlrCli.TargetsShaped(slo)
    ensures fresh(act)
    ensures act.errors == SloCreationMessages(slo)
    ensures posted <==> act.errors == []
  {
    act := new Action();
    if "title" !in Keys(slo) {
      act.Error(Text(TitleMissing));
    }
    if "targets" !in Keys(slo) {
      act.Error(Text(TargetsMissing));
    }
    var ts := SlrCli.TargetDicts(slo);
    ghost var start := act.errors;
    for i := 0 to |ts|
      invariant act.errors == start + ConcatMap(TargetNameMessage, ts[..i])
    {
      ghost var done, next := ConcatMap(TargetNameMessage, ts[..i]), TargetNameMessage(ts[i]);
      ConcatMapSnoc(TargetNameMessage, ts, i);
      if "sli_name" !in Keys(ts[i]) {
        act.Error(Text(TargetNameMissing));
      }
      AppendAssoc(start, done, next);
    }
    assert ts[..|ts|] == ts;
    posted := act.errors == [];
  }

  /** An SLO is sent exactly when it has a title, targets, and an sli_name in every target. */
  lemma SloCreationMeaning(slo: Dict)
    requires SlrCli.TargetsShaped(slo)
    ensures SloCreationMessages(slo) == [] <==>
      "title" in Keys(slo) && "targets" in Keys(slo) &&
      forall i :: 0 <= i < |SlrCli.TargetDicts(slo)| ==> "sli_name" in Keys(SlrCli.TargetDicts(slo)[i])
  {
    ConcatMapEmpty(TargetNameMessage, SlrCli.TargetDicts(slo));
  }

  const EmptyTitle: Dict := [("title", Str("")), ("targets", Array([]))]

  /**
   * This client only asks for a title key, where the newer one asks for a non-empty title:
   * an SLO titled "" passes here and is refused there.
   */
  lemma EmptyTitleAccepted()
    ensures SlrCli.TargetsShaped(EmptyTitle)
    ensures SloCreationMessages(EmptyTitle) == []
    ensures SlrCli.SloMessages(EmptyTitle) != []
  {
    assert EmptyTitle[1..] == [("targets", Array([]))];
    assert Get(EmptyTitle, "targets") == Some(Array([]));
    assert SlrCli.TargetDicts(EmptyTitle) == [];
    assert Get(EmptyTitle, "title") == Some(Str(""));
  }

  // ---------------------------------------------------------------------------------------
  // sli update

  /** `sli update` stops when start and end are both given (nonzero) and start <= end. */
  predicate UpdateRefused(start: Option<int>, end: Option<int>) {
    start.GetOr(0) != 0 && end.GetOr(0) != 0 && start.GetOr(0) <= end.GetOr(0)
  }

  /** Both clients stop on the same ranges. */
  lemma UpdateRefusedAsQuery(start: int, end: Option<int>)
    ensures UpdateRefused(Some(start), end) <==> SlrCli.QueryRefused(start, end)
    ensures UpdateRefused(Some(start), end) ==> end.Some? && end.value >= start
  {
  }

  /** `Client.sli_update`'s body: start and end, each only when truthy. */
  method SliUpdateBody(start: Option<int>, end: Option<int>) returns (data: Dict)
    ensures Get(data, "start") == (if start.GetOr(0) != 0 then Some(Int(start.value)) else None)
    ensures Get(data, "end") == (if end.GetOr(0) != 0 then Some(Int(end.value)) else None)
    ensures forall k :: k in Keys(data) ==> k == "start" || k == "end"
  {
    data := [];
    if start.GetOr(0) != 0 {
      PutMeaning(data, "start", Int(start.value), "start");
      PutMeaning(data, "start", Int(start.value), "end");
      data := Put(data, "start", Int(start.value));
    }
    if end.GetOr(0) != 0 {
      PutMeaning(data, "end", Int(end.value), "start");
      PutMeaning(data, "end", Int(end.value), "end");
      forall k | k in Keys(Put(data, "end", Int(end.value))) ensures k == "start" || k == "end" {
        PutMeaning(data, "end", Int(end.value), k);
      }
      data := Put(data, "end", Int(end.value));
    }
  }

  // ---------------------------------------------------------------------------------------
  // slo delete

  /** `slo.get('id') == n`, with Python's equality between booleans, ints and floats. */
  predicate IdEquals(v: Value, n: int) {
    match v
    case Int(i) => i == n
    case Bool(b) => (if b then 1 else 0) == n
    case Float(r) => r == n as real
    case _ => false
  }

  /** `[slo for slo in slos if slo.get('id') == n]` is not empty. */
  predicate Owned(slos: seq<Dict>, n: int)
    decreases |slos|
  {
    |slos| > 0 && (IdEquals(GetOr(slos[0], "id", Null), n) || Owned(slos[1..], n))
  }

  lemma {:induction false} OwnedMeaning(slos: seq<Dict>, n: int)
    ensures Owned(slos, n) <==> exists i :: 0 <= i < |slos| && IdEquals(GetOr(slos[i], "id", Null), n)
    decreases |slos|
  {
    if |slos| > 0 {
      OwnedMeaning(slos[1..], n);
      if i :| 0 <= i < |slos| && IdEquals(GetOr(slos[i], "id", Null), n) {
        if i > 0 {
          assert slos[1..][i - 1] == slos[i];
        }
      }
      if i :| 0 <= i < |slos[1..]| && IdEquals(GetOr(slos[1..][i], "id", Null), n) {
        assert slos[1..][i] == slos[i + 1];
      }
    }
  }

  /**
   * `Client.slo_delete`: the product's SLOs must include the id. `int(id)` is evaluated
   * once per SLO inside the filter, so with no SLOs it is never evaluated.
   */
  function SloDelete(slos: seq<Dict>, id: string): Result<(), Failure> {
    if |slos| == 0 then Err(SloNotInProduct)
    else
      match ParseInt(id)
      case None => Err(Raised("ValueError"))
      case Some(n) => if Owned(slos, n) then Ok(()) else Err(SloNotInProduct)
  }

  /**
   * An SLO is deleted exactly when its id is an integer and some SLO of the product has
   * that id; an id that is not an integer raises when the product has SLOs, and any other
   * refusal is the client's own.
   */
  lemma SloDeleteMeaning(slos: seq<Dict>, id: string)
    ensures SloDelete(slos, id).Ok? <==>
      ParseInt(id).Some? && exists i :: 0 <= i < |slos| && IdEquals(GetOr(slos[i], "id", Null), ParseInt(id).value)
    ensures SloDelete(slos, id).Err? && ParseInt(id).Some? ==> SloDelete(slos, id).error == SloNotInProduct
    ensures SloDelete(slos, id) == Err(Raised("ValueError")) <==> |slos| > 0 && ParseInt(id).None?
  {
    if ParseInt(id).Some? {
      OwnedMeaning(slos, ParseInt(id).value);
    }
  }

  /** The SLO with id 1 also matches "1" through a float id 1.0 or the boolean true. */
  lemma SloDeleteNumericIds()
    ensures SloDelete([[("id", Float(1.0))]], "1").Ok?
    ensures SloDelete([[("id", Bool(true))]], "1").Ok?
    ensures SloDelete([[("id", Str("1"))]], "1") == Err(SloNotInProduct)
  {
    assert ParseInt("1") == Some(1);
  }
}
