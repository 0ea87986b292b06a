/**
 * What every REST resource of the service shares: the problem a request is refused with,
 * paging, the id at the end of a resource URI, the fields copied from a request body and
 * the page links of a list response.
 */
module Resource {
  import opened Wrappers
  import opened PyStr
  import opened OrderedDict
  import opened PyValue
  import opened SourceBase

  /** A problem response: status, title and detail. */
  datatype Problem = Problem(status: int, title: string, detail: string)

  /** A refused request, or a Python exception the handler does not catch. */
  datatype ApiError = Refused(problem: Problem) | Raised(exception: string)

  /** `API_DEFAULT_PAGE_SIZE` */
  const DefaultPageSize: int := 100

  // ---------------------------------------------------------------------------------------
  // Paging

  const PagingProblem: Problem :=
    Problem(400, "Invalid paging parameters", "page and page_size should be greater than 0")

  /**
   * `get_limited_query`: the page (default 1, and 0 read as 1) and the page size (default
   * `API_DEFAULT_PAGE_SIZE`) the query is paginated with; a negative page or a page size
   * below 1 is refused.
   */
  function LimitedQuery(page: Option<int>, pageSize: Option<int>): (r: Result<(int, int), Problem>)
    ensures r.Ok? <==> page.GetOr(1) >= 0 && pageSize.GetOr(DefaultPageSize) >= 1
    ensures r.Ok? ==> r.value.0 >= 1 && r.value.1 >= 1
    ensures r.Err? ==> r.error == PagingProblem
  {
    var perPage := pageSize.GetOr(DefaultPageSize);
    var p := page.GetOr(1);
    if p < 0 || perPage < 1 then Err(PagingProblem)
    else Ok((if p == 0 then 1 else p, perPage))
  }

  /** Without parameters the first page of the default size; page 0 is page 1; others stay. */
  lemma LimitedQueryPages(page: int, pageSize: Option<int>)
    ensures LimitedQuery(None, None) == Ok((1, DefaultPageSize))
    ensures LimitedQuery(Some(0), pageSize) == LimitedQuery(Some(1), pageSize)
    ensures page >= 1 && pageSize.GetOr(DefaultPageSize) >= 1 ==>
      LimitedQuery(Some(page), pageSize).value.0 == page
  {
  }

  // ---------------------------------------------------------------------------------------
  // Resource URIs

  /** `s.rsplit('/', 1)[-1]`: the text after the last '/'. */
  function LastSegment(s: string): string {
    Last(Split(s, '/'))
  }

  /** `get_id_from_uri`: the last path segment as a number when it is all digits. */
  function IdFromUri(uri: string): (r: Option<nat>)
    ensures r.Some? ==> |LastSegment(Strip(uri, '/'))| > 0 && AllDigits(LastSegment(Strip(uri, '/')))
  {
    ParseNat(LastSegment(Strip(uri, '/')))
  }

  /** `lstrip` drops a run of the character from the front and keeps the rest. */
  lemma {:induction false} StripLeftDrops(s: string, c: char)
    ensures |StripLeft(s, c)| <= |s|
    ensures StripLeft(s, c) == s[|s| - |StripLeft(s, c)|..]
    ensures forall i :: 0 <= i < |s| - |StripLeft(s, c)| ==> s[i] == c
    ensures |StripLeft(s, c)| > 0 ==> StripLeft(s, c)[0] != c
    decreases |s|
  {
    if |s| > 0 && s[0] == c {
      StripLeftDrops(s[1..], c);
      var r := StripLeft(s[1..], c);
      assert s[1..][|s| - 1 - |r|..] == s[|s| - |r|..];
      forall i | 0 <= i < |s| - |r| ensures s[i] == c {
        if i > 0 {
          assert s[i] == s[1..][i - 1];
        }
      }
    }
  }

  /** The last piece of a split is what follows the last separator. */
  lemma {:induction false} SplitLast(a: string, sep: char, d: string)
    requires sep !in d
    ensures Last(Split(a + [sep] + d, sep)) == d
    decreases |a|
  {
    var s := a + [sep] + d;
    if |a| == 0 {
      SplitWithout(d, sep);
      assert s[1..] == d;
    } else {
      assert s[1..] == a[1..] + [sep] + d;
      SplitLast(a[1..], sep, d);
      assert s[1..][|a| - 1] == sep;
      SplitWith(s[1..], sep);
    }
  }

  /** The last piece of a split ends the string. */
  lemma {:induction false} SplitLastSuffix(s: string, sep: char)
    ensures |Last(Split(s, sep))| <= |s|
    ensures Last(Split(s, sep)) == s[|s| - |Last(Split(s, sep))|..]
    decreases |s|
  {
    if |s| > 0 {
      SplitLastSuffix(s[1..], sep);
      var rest := Split(s[1..], sep);
      if s[0] != sep && |rest| == 1 {
        SplitLastWhole(s, sep);
      } else {
        SplitLastOfTail(s, sep);
        TailSlice(s, |s| - 1 - |Last(rest)|);
      }
    }
  }

  /** A string with no separator after a first non-separator character splits into itself. */
  lemma SplitLastWhole(s: string, sep: char)
    requires |s| > 0 && s[0] != sep && |Split(s[1..], sep)| == 1
    ensures Last(Split(s, sep)) == s
  {
    var rest := Split(s[1..], sep);
    assert Split(s, sep) == [[s[0]] + rest[0]];
    JoinSplit(s[1..], sep);
    assert rest[0] == s[1..];
    assert [s[0]] + s[1..] == s;
  }

  /** Otherwise the last piece is that of the split of the tail. */
  lemma SplitLastOfTail(s: string, sep: char)
    requires |s| > 0 && (s[0] == sep || |Split(s[1..], sep)| > 1)
    ensures Last(Split(s, sep)) == Last(Split(s[1..], sep))
  {
  }

  lemma TailSlice(s: string, j: nat)
    requires j < |s|
    ensures s[1..][j..] == s[j + 1..]
  {
  }

  /** Once the run of leading separators is gone, appending text changes nothing before it. */
  lemma {:induction false} StripLeftAppend(u: string, t: string, c: char, i: nat)
    requires i < |u| && u[i] != c
    ensures StripLeft(u + t, c) == StripLeft(u, c) + t
    decreases |u|
  {
    if u[0] == c {
      assert (u + t)[1..] == u[1..] + t;
      StripLeftAppend(u[1..], t, c, i - 1);
    }
  }

  /** The last segment of a path ending in `/d` (with or without a trailing '/') is d. */
  lemma PathLastSegment(path: string, d: string, trailing: bool)
    requires |d| > 0 && '/' !in d
    ensures LastSegment(Strip(path + "/" + d + (if trailing then "/" else ""), '/')) == d
  {
    var u := path + "/" + d;
    var t: string := if trailing then "/" else "";
    assert u[|path| + 1] == d[0];
    StripLeftAppend(u, t, '/', |path| + 1);
    StripLeftDrops(u, '/');
    var l := StripLeft(u, '/');
    var k := |u| - |l|;
    assert k <= |path| + 1;
    assert l[|l| - 1] == d[|d| - 1];
    assert d[|d| - 1] != '/';
    assert StripRight(l, '/') == l;
    if trailing {
      assert StripRight(l + t, '/') == StripRight(l, '/') by {
        assert (l + t)[..|l + t| - 1] == l;
      }
    } else {
      assert l + t == l;
    }
    assert path + "/" + d + t == u + t;
    assert Strip(u + t, '/') == l;
    if k == |path| + 1 {
      assert l == d;
      SplitWithout(d, '/');
    } else {
      assert l == path[k..] + ['/'] + d;
      SplitLast(path[k..], '/', d);
    }
  }

  /** A URI whose last segment is a printed id reads back that id, trailing '/' or not. */
  lemma IdFromUriOf(path: string, id: nat, trailing: bool)
    ensures IdFromUri(path + "/" + NatToString(id) + (if trailing then "/" else "")) == Some(id)
  {
    var d := NatToString(id);
    assert '/' !in d by {
      forall i | 0 <= i < |d| ensures d[i] != '/' {
        assert IsDigit(d[i]);
      }
    }
    PathLastSegment(path, d, trailing);
    ParseNatToString(id);
  }

  /**
   * `build_resource`'s URI path: the request path itself when its last segment is already the
   * object's id (a detail request), the request path and the id otherwise (a list request).
   */
  function UriPath(requestPath: string, id: nat): string {
    if LastSegment(StripLeft(requestPath, '/')) == NatToString(id) then requestPath
    else requestPath + "/" + NatToString(id)
  }

  /** The URI a resource is given names its id: `get_id_from_uri` reads it back. */
  lemma UriPathNamesId(requestPath: string, id: nat)
    ensures IdFromUri(UriPath(requestPath, id)) == Some(id)
  {
    var d := NatToString(id);
    if LastSegment(StripLeft(requestPath, '/')) == d {
      var l := StripLeft(requestPath, '/');
      SplitLastSuffix(l, '/');
      assert l[|l| - 1] == d[|d| - 1];
      assert IsDigit(d[|d| - 1]);
      assert StripRight(l, '/') == l;
      ParseNatToString(id);
    } else {
      IdFromUriOf(requestPath, id, false);
      assert requestPath + "/" + d + "" == requestPath + "/" + d;
    }
  }

  // ---------------------------------------------------------------------------------------
  // Fields of a request body

  const ReadOnlyFields: seq<string> := ["created", "updated", "username"]

  const EmptySlugProblem: Problem :=
    Problem(400, "Invalid resource name", "Resource name is invalid. Should include at least one character!")

  /** The value a field is given: the slug of the name for "slug", else the body's value or None. */
  function FieldValue(field: string, body: Dict, slugger: Value -> string): Value {
    if field == "slug" && "name" in Keys(body) then Str(slugger(Get(body, "name").value))
    else GetOr(body, field, Null)
  }

  /** Whether the slug of the body's name is computed, and empty. */
  predicate SlugEmpty(fields: seq<string>, body: Dict, slugger: Value -> string) {
    "slug" in fields && "name" in Keys(body) && slugger(Get(body, "name").value) == ""
  }

  /** The fields `get_object_fields` collects over the first model fields. */
  function ObjectFields(fields: seq<string>, body: Dict, slugger: Value -> string): Result<Dict, Problem>
    decreases |fields|
  {
    if |fields| == 0 then Ok([])
    else
      match ObjectFields(fields[..|fields| - 1], body, slugger)
      case Err(p) => Err(p)
      case Ok(acc) =>
        var f := Last(fields);
        if f in ReadOnlyFields then Ok(acc)
        else if f == "slug" && "name" in Keys(body) && slugger(Get(body, "name").value) == "" then
          Err(EmptySlugProblem)
        else Ok(Put(acc, f, FieldValue(f, body, slugger)))
  }

  /** `get_object_fields`: the model's fields read from the body, read-only ones skipped. */
  method GetObjectFields(modelFields: seq<string>, body: Dict, slugger: Value -> string)
    returns (r: Result<Dict, Problem>)
    ensures r == ObjectFields(modelFields, body, slugger)
  {
    var fields: Dict := [];
    for i := 0 to |modelFields|
      invariant ObjectFields(modelFields[..i], body, slugger) == Ok(fields)
    {
      assert modelFields[..i + 1][..i] == modelFields[..i];
      var field := modelFields[i];
      if field in ReadOnlyFields {
        continue;
      }
      if field == "slug" && "name" in Keys(body) {
        var slug := slugger(Get(body, "name").value);
        fields := Put(fields, "slug", Str(slug));
        if slug == "" {
          ObjectFieldsFailurePersists(modelFields, body, slugger, i + 1);
          assert modelFields[..|modelFields|] == modelFields;
          return Err(EmptySlugProblem);
        }
      } else {
        fields := Put(fields, field, GetOr(body, field, Null));
      }
    }
    assert modelFields[..|modelFields|] == modelFields;
    return Ok(fields);
  }

  /** Once a prefix of the fields is refused, the whole collection is refused the same way. */
  lemma {:induction false} ObjectFieldsFailurePersists(fields: seq<string>, body: Dict, slugger: Value -> string, i: nat)
    requires i <= |fields| && ObjectFields(fields[..i], body, slugger).Err?
    ensures ObjectFields(fields, body, slugger) == ObjectFields(fields[..i], body, slugger)
    decreases |fields| - i
  {
    if i < |fields| {
      assert fields[..i + 1][..i] == fields[..i];
      ObjectFieldsFailurePersists(fields, body, slugger, i + 1);
    } else {
      assert fields[..i] == fields;
    }
  }

  /**
   * The body is refused exactly when the slug of its name is empty; otherwise every model
   * field except the read-only ones is set, once, to its value.
   */
  lemma {:induction false} ObjectFieldsMeaning(fields: seq<string>, body: Dict, slugger: Value -> string, f: string)
    ensures ObjectFields(fields, body, slugger).Err? <==> SlugEmpty(fields, body, slugger)
    ensures ObjectFields(fields, body, slugger).Err? ==> ObjectFields(fields, body, slugger).error == EmptySlugProblem
    ensures ObjectFields(fields, body, slugger).Ok? ==>
      var r := ObjectFields(fields, body, slugger).value;
      && DistinctKeys(r)
      && (f in Keys(r) <==> f in fields && f !in ReadOnlyFields)
      && (f in Keys(r) ==> Get(r, f) == Some(FieldValue(f, body, slugger)))
    decreases |fields|
  {
    if |fields| > 0 {
      var init := fields[..|fields| - 1];
      ObjectFieldsMeaning(init, body, slugger, f);
      assert fields == init + [Last(fields)];
      assert "slug" in fields <==> "slug" in init || Last(fields) == "slug";
      assert f in fields <==> f in init || Last(fields) == f;
      match ObjectFields(init, body, slugger)
      case Err(_) =>
      case Ok(acc) =>
        var g := Last(fields);
        if g !in ReadOnlyFields {
          PutMeaning(acc, g, FieldValue(g, body, slugger), f);
          PutDistinct(acc, g, FieldValue(g, body, slugger));
        }
    }
  }

  // ---------------------------------------------------------------------------------------
  // List responses

  /** A page link's query: the page number and the page size. */
  datatype Link = Link(page: int, pageSize: int)

  /** The `_meta` links of a list response. */
  datatype Links = Links(next: Option<Link>, previous: Option<Link>)

  /**
   * `build_list_response`'s links. Without pagination (None) there are none; otherwise the
   * next link carries `next_num` and the previous one `page - 1`, each only when that
   * number is truthy. A pagination record without a page number cannot be decremented.
   */
  function ListLinks(paginated: Option<Pagination>): (r: Result<Links, Error>)
    ensures r.Err? <==> paginated.Some? && paginated.value.page.None?
    ensures r.Err? ==> r.error == Crash("TypeError")
    ensures r.Ok? && paginated.None? ==> r.value == Links(None, None)
  {
    if paginated.None? then Ok(Links(None, None))
    else
      var p := paginated.value;
      if p.page.None? then Err(Crash("TypeError"))
      else
        var next := p.nextNum;
        var previous := p.page.value - 1;
        Ok(Links(if next.Some? && next.value != 0 then Some(Link(next.value, p.perPage)) else None,
                 if previous != 0 then Some(Link(previous, p.perPage)) else None))
  }

  /**
   * A paginated list links to the next page exactly when there is a next page number and to
   * the page before exactly when it is not the first page; the links keep the page size.
   */
  lemma ListLinksPages(p: Pagination)
    requires p.page.Some?
    ensures var links := ListLinks(Some(p)).value;
      && (links.next.Some? <==> p.nextNum.Some? && p.nextNum.value != 0)
      && (links.next.Some? ==> links.next.value == Link(p.nextNum.value, p.perPage))
      && (links.previous.Some? <==> p.page.value != 1)
      && (links.previous.Some? ==> links.previous.value == Link(p.page.value - 1, p.perPage))
  {
  }
}
