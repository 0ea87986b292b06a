/**
 * The SLI REST resource: what an SLI body must carry, the aggregation type an SLI caches
 * from its source, the soft delete, the listing filters and the windows of the value listing
 * and of the query that refreshes an SLI's values.
 */
module SliApi {
  import opened Wrappers
  import opened PyStr
  import opened OrderedDict
  import opened PyValue
  import opened SourceBase
  import opened Resource
  import Sources
  import Zmon
  import Kairos

  /** The fields an SLI resource copies from a body (its `model_fields`). */
  const ModelFields: seq<string> := ["name", "slug", "source", "unit", "aggregation", "created", "updated", "username"]

  const NameProblem: Problem := Problem(400, "Invalid SLI", "SLI 'name' must have a value!")
  const SourceProblem: Problem := Problem(400, "Invalid SLI", "SLI 'source' must have a value!")

  // ---------------------------------------------------------------------------------------
  // Validation

  /**
   * `SLIResource.validate`: a name, then a source, then the source's own validation; a
   * source error becomes an "Invalid SLI source" problem carrying its message.
   */
  function Validate(sli: Dict): ApiError_Result {
    if |sli| == 0 || !Truthy(GetOr(sli, "name", Null)) then Err(Refused(NameProblem))
    else
      var source := GetOr(sli, "source", Null);
      if !Truthy(source) then Err(Refused(SourceProblem))
      // `config.copy()` exists on lists, whose `pop` then refuses a key; other values have no `copy`
      else if source.Array? then Err(Raised("TypeError"))
      else if !source.Object? then Err(Raised("AttributeError"))
      else
        match Sources.ValidateConfig(source.entries)
        case Ok(_) => Ok(())
        case Err(SourceError(message)) => Err(Refused(Problem(400, "Invalid SLI source", message)))
        case Err(Crash(e)) => Err(Raised(e))
  }

  type ApiError_Result = Result<(), ApiError>

  /**
   * An SLI is accepted exactly when it has a name, a dictionary as source and the source
   * passes its backend's validation; the name is checked before the source, and a source
   * error reaches the client with its message unchanged.
   */
  lemma ValidateMeaning(sli: Dict)
    ensures Validate(sli).Ok? <==>
      Truthy(GetOr(sli, "name", Null)) && GetOr(sli, "source", Null).Object? &&
      Truthy(GetOr(sli, "source", Null)) && Sources.ValidateConfig(GetOr(sli, "source", Null).entries).Ok?
    ensures !Truthy(GetOr(sli, "name", Null)) ==> Validate(sli) == Err(Refused(NameProblem))
    ensures Truthy(GetOr(sli, "name", Null)) && !Truthy(GetOr(sli, "source", Null)) ==>
      Validate(sli) == Err(Refused(SourceProblem))
    ensures Truthy(GetOr(sli, "name", Null)) && GetOr(sli, "source", Null).Object? && Truthy(GetOr(sli, "source", Null)) ==>
      forall m :: Sources.ValidateConfig(GetOr(sli, "source", Null).entries) == Err(SourceError(m)) ==>
        Validate(sli) == Err(Refused(Problem(400, "Invalid SLI source", m)))
  {
    if |sli| == 0 {
      assert Get(sli, "name") == None;
    }
  }

  // ---------------------------------------------------------------------------------------
  // The cached aggregation type

  /** `source.get("aggregation", {}).get("type")`; `.get` fails on anything but a dict. */
  function CachedAggregation(source: Value): Result<Value, ApiError> {
    if !source.Object? then Err(Raised("AttributeError"))
    else
      var aggregation := GetOr(source.entries, "aggregation", Object([]));
      if !aggregation.Object? then Err(Raised("AttributeError"))
      else Ok(GetOr(aggregation.entries, "type", Null))
  }

  /**
   * A source ZMON validated caches its aggregation type, which is one of the seven names; a
   * source without an aggregation caches None.
   */
  lemma CachedAggregationOfValidated(config: Dict)
    ensures Sources.ValidateConfig(config).Ok? && Get(config, "type") in {None, Some(Str("zmon"))} ==>
      CachedAggregation(Object(config)).Ok? &&
      CachedAggregation(Object(config)).value.Str? &&
      CachedAggregation(Object(config)).value.s in Kairos.AggregationTypes
    ensures "aggregation" !in Keys(config) ==> CachedAggregation(Object(config)) == Ok(Null)
  {
    if Sources.ValidateConfig(config).Ok? && Get(config, "type") in {None, Some(Str("zmon"))} {
      Sources.ValidateConfigDelegates(config);
      var rest := Remove(config, "type");
      if Get(config, "type") == None {
        RemoveAbsent(config, "type");
      }
      GetRemove(config, "type", "aggregation");
      assert Zmon.ValidateConfig(rest).Ok?;
      assert Zmon.TypeValid(rest);
    }
  }

  // ---------------------------------------------------------------------------------------
  // The indicator row

  /** An `Indicator` row as the resource handler changes it. */
  class Indicator {
    var name: Value
    var slug: Value
    var source: Value
    var unit: Value
    var aggregation: Value
    var isDeleted: bool
    var productId: int
    /** `obj.targets.count()`: the SLO targets referencing this SLI. */
    var targetCount: nat

    /** `new_object`: the row built from the body's fields under its product. */
    constructor (fields: Dict, productId: int)
      ensures name == GetOr(fields, "name", Null) && slug == GetOr(fields, "slug", Null)
      ensures source == GetOr(fields, "source", Null) && unit == GetOr(fields, "unit", Null)
      ensures aggregation == GetOr(fields, "aggregation", Null)
      ensures this.productId == productId && !isDeleted && targetCount == 0
    {
      name := GetOr(fields, "name", Null);
      slug := GetOr(fields, "slug", Null);
      source := GetOr(fields, "source", Null);
      unit := GetOr(fields, "unit", Null);
      aggregation := GetOr(fields, "aggregation", Null);
      this.productId := productId;
      isDeleted := false;
      targetCount := 0;
    }

    /** Whether the listing of a product, with the given column filters, shows this row. */
    predicate Listed(product: int, filters: seq<(string, string)>)
      reads this
    {
      && productId == product
      && !isDeleted
      && (forall f :: f in filters && f.0 == "slug" ==> slug == Str(f.1))
    }

    /** `before_object_update`: the aggregation type is cached from the source. */
    method BeforeObjectUpdate() returns (r: Result<(), ApiError>)
      modifies this`aggregation
      ensures r.Ok? <==> CachedAggregation(source).Ok?
      ensures r.Ok? ==> aggregation == CachedAggregation(source).value
      ensures r.Err? ==> r.error == CachedAggregation(source).error && aggregation == old(aggregation)
    {
      var cached := CachedAggregation(source);
      if cached.Err? {
        return Err(cached.error);
      }
      aggregation := cached.value;
      return Ok(());
    }

    /** `save_object`: the slug is the slug of the name, then the aggregation is cached. */
    method SaveObject(slugger: Value -> string) returns (r: Result<(), ApiError>)
      modifies this`slug, this`aggregation
      ensures slug == Str(slugger(name))
      ensures r.Ok? <==> CachedAggregation(source).Ok?
      ensures r.Ok? ==> aggregation == CachedAggregation(source).value
    {
      slug := Str(slugger(name));
      r := BeforeObjectUpdate();
    }

    /** `setattr(obj, field, val)` for the model's columns; other names are not columns. */
    method SetField(field: string, val: Value)
      modifies this`name, this`slug, this`source, this`unit, this`aggregation
      ensures name == (if field == "name" then val else old(name))
      ensures slug == (if field == "slug" then val else old(slug))
      ensures source == (if field == "source" then val else old(source))
      ensures unit == (if field == "unit" then val else old(unit))
      ensures aggregation == (if field == "aggregation" then val else old(aggregation))
    {
      if field == "name" {
        name := val;
      } else if field == "slug" {
        slug := val;
      } else if field == "source" {
        source := val;
      } else if field == "unit" {
        unit := val;
      } else if field == "aggregation" {
        aggregation := val;
      }
    }

    /**
     * `update_object`: every field of the body is set, the aggregation is re-cached from the
     * new source (whatever the body said), and the row moves to the requested product, which
     * must exist.
     */
    method UpdateObject(fields: Dict, product: int, productExists: int -> bool) returns (r: Result<(), ApiError>)
      modifies this`name, this`slug, this`source, this`unit, this`aggregation, this`productId
      ensures name == Assigned(fields, "name", old(name)) && slug == Assigned(fields, "slug", old(slug))
      ensures source == Assigned(fields, "source", old(source)) && unit == Assigned(fields, "unit", old(unit))
      ensures CachedAggregation(source).Ok? ==> aggregation == CachedAggregation(source).value
      ensures r.Ok? <==> CachedAggregation(source).Ok? && (product == old(productId) || productExists(product))
      ensures r.Ok? ==> productId == product
      ensures r.Err? && CachedAggregation(source).Ok? ==> r.error == Refused(NotFound)
    {
      for i := 0 to |fields|
        invariant name == Assigned(fields[..i], "name", old(name))
        invariant slug == Assigned(fields[..i], "slug", old(slug))
        invariant source == Assigned(fields[..i], "source", old(source))
        invariant unit == Assigned(fields[..i], "unit", old(unit))
        invariant aggregation == Assigned(fields[..i], "aggregation", old(aggregation))
        invariant productId == old(productId)
      {
        assert fields[..i + 1][..i] == fields[..i];
        SetField(fields[i].0, fields[i].1);
      }
      assert fields[..|fields|] == fields;
      r := BeforeObjectUpdate();
      if r.Err? {
        return;
      }
      if productId != product {
        if !productExists(product) {
          return Err(Refused(NotFound));
        }
        productId := product;
      }
    }

    /**
     * `delete_object`: refused while SLO targets reference the SLI; otherwise a soft delete
     * that renames the SLI out of the way and hides it from every listing.
     */
    method DeleteObject(now: string, repr: Value -> string) returns (r: Result<(), Problem>)
      modifies this`name, this`isDeleted
      ensures r.Err? <==> old(targetCount) > 0
      ensures r.Err? ==> r.error == DeleteForbidden && name == old(name) && isDeleted == old(isDeleted)
      ensures r.Ok? ==> name == Str(Display(old(name), repr) + "-" + now) && isDeleted
      ensures r.Ok? ==> forall product, filters :: !Listed(product, filters)
    {
      if targetCount > 0 {
        return Err(DeleteForbidden);
      }
      name := Str(Display(name, repr) + "-" + now);
      isDeleted := true;
      return Ok(());
    }
  }

  const NotFound: Problem := Problem(404, "Not Found", "The requested URL was not found on the server.")

  const DeleteForbidden: Problem := Problem(403, "Deleting SLI forbidden", "Some SLO targets reference this SLI.")

  /** The value a column ends with after `setattr` over the fields in order: the last one wins. */
  function Assigned(fields: Dict, field: string, current: Value): Value
    decreases |fields|
  {
    if |fields| == 0 then current
    else if Last(fields).0 == field then Last(fields).1
    else Assigned(fields[..|fields| - 1], field, current)
  }

  /** With the distinct fields `get_object_fields` builds, a column takes the body's value or keeps its own. */
  lemma {:induction false} AssignedDistinct(fields: Dict, field: string, current: Value)
    requires DistinctKeys(fields)
    ensures Assigned(fields, field, current) == GetOr(fields, field, current)
    decreases |fields|
  {
    if |fields| > 0 {
      var init := fields[..|fields| - 1];
      AssignedDistinct(init, field, current);
      if Last(fields).0 == field {
        GetEntry(fields, |fields| - 1);
      } else {
        GetPrefix(fields, field);
      }
    }
  }

  /** A key other than the last entry's reads the same without that entry. */
  lemma {:induction false} GetPrefix(d: Dict, k: string)
    requires |d| > 0 && Last(d).0 != k
    ensures Get(d, k) == Get(d[..|d| - 1], k)
    decreases |d|
  {
    if |d| > 1 {
      assert d[1..][..|d| - 2] == d[..|d| - 1][1..];
      GetPrefix(d[1..], k);
    }
  }

  /** `'{}'.format(value)`: the text of a string, number, boolean or None; `repr` for the rest. */
  function Display(v: Value, repr: Value -> string): string {
    match StrOf(v)
    case Some(s) => s
    case None => repr(v)
  }

  // ---------------------------------------------------------------------------------------
  // Listing

  /** `get_filter_kwargs`: a name filter becomes a filter on the name's slug. */
  function FilterKwargs(kwargs: Dict, slugger: Value -> string): seq<(string, string)> {
    if "name" in Keys(kwargs) then [("slug", slugger(Get(kwargs, "name").value))] else []
  }

  /**
   * The listing of a product shows its SLIs that are not deleted, and with a name filter
   * only those whose slug is the slug of that name.
   */
  lemma ListedByName(ind: Indicator, product: int, kwargs: Dict, slugger: Value -> string)
    ensures ind.Listed(product, FilterKwargs(kwargs, slugger)) <==>
      ind.productId == product && !ind.isDeleted &&
      ("name" in Keys(kwargs) ==> ind.slug == Str(slugger(Get(kwargs, "name").value)))
  {
    if "name" in Keys(kwargs) {
      assert ("slug", slugger(Get(kwargs, "name").value)) in FilterKwargs(kwargs, slugger);
    }
  }

  // ---------------------------------------------------------------------------------------
  // Windows

  /** The default value window of the listing: a week, in minutes. */
  const DefaultFromMinutes: int := 10080

  const RangeProblem: Problem :=
    Problem(400, "Invalid time range", "Query filters 'from' should be greater than 'to'")

  /** The range and the paging the value listing asks its source for. */
  datatype ValueQuery = ValueQuery(range: TimeRange, page: Option<int>, perPage: Option<int>)

  /**
   * `SLIValueResource.list`'s window and paging: "from" defaults to a week back; a range
   * starting after it ends is refused; an explicit "from" lists every value unpaged, and
   * otherwise the page (default 1, 0 read as 1) and the page size (default
   * `API_DEFAULT_PAGE_SIZE`) apply. `toDatetimes` is the relative range's conversion to
   * instants.
   */
  function ValueListing(from: Option<int>, to: Option<int>, page: Option<int>, pageSize: Option<int>,
                        toDatetimes: (int, Option<int>) -> TimeRange): (r: Result<ValueQuery, Problem>)
    ensures var range := toDatetimes(from.GetOr(DefaultFromMinutes), to);
      (r.Err? <==> range.start > range.end) && (r.Ok? ==> r.value.range == range)
    ensures r.Err? ==> r.error == RangeProblem
    ensures r.Ok? ==> (r.value.page.None? <==> from.Some?) && (r.value.perPage.None? <==> from.Some?)
    ensures r.Ok? && from.None? ==>
      r.value.page == Some(if page.GetOr(0) == 0 then 1 else page.value) &&
      r.value.perPage == Some(pageSize.GetOr(DefaultPageSize))
  {
    var range := toDatetimes(from.GetOr(DefaultFromMinutes), to);
    if range.start > range.end then Err(RangeProblem)
    else if from.Some? then Ok(ValueQuery(range, None, None))
    else
      var p := page.GetOr(0);
      Ok(ValueQuery(range, Some(if p == 0 then 1 else p), Some(pageSize.GetOr(DefaultPageSize))))
  }

  /** Without parameters: a week back, first page, default page size. */
  lemma ValueListingDefaults(to: Option<int>, toDatetimes: (int, Option<int>) -> TimeRange)
    requires toDatetimes(DefaultFromMinutes, to).start <= toDatetimes(DefaultFromMinutes, to).end
    ensures ValueListing(None, to, None, None, toDatetimes) ==
      Ok(ValueQuery(toDatetimes(DefaultFromMinutes, to), Some(1), Some(DefaultPageSize)))
  {
  }

  const StartMissing: Problem := Problem(400, "Invalid query duration", "Query 'start' must have a value!")
  const StartBeforeEnd: Problem := Problem(400, "Invalid query duration", "Query 'start' must be greater than 'end'")

  /**
   * `SLIQueryResource.validate`: the relative start (in minutes back) must be given and
   * nonzero, and must reach at least as far back as the end, which defaults to 0 (now).
   */
  function QueryValidate(start: Option<int>, end: Option<int>): (r: Result<(), Problem>)
    ensures r.Ok? <==> start.Some? && start.value != 0 && start.value >= end.GetOr(0)
    ensures r.Err? ==> r.error == (if start.None? || start.value == 0 then StartMissing else StartBeforeEnd)
  {
    if start.None? || start.value == 0 then Err(StartMissing)
    else if start.value < end.GetOr(0) then Err(StartBeforeEnd)
    else Ok(())
  }
}
