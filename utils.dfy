/** `strip_column_prefix`: a database row's columns renamed without their table prefix. */
module Utils {
  import opened Wrappers
  import opened PyStr
  import opened OrderedDict
  import opened SourceBase

  /** `k.split('_', 1)[1]`: the text after the first '_', if there is one. */
  function AfterPrefix(k: string): (r: Option<string>)
    ensures r.Some? <==> '_' in k
    ensures r.Some? ==> |r.value| < |k| && k[|k| - |r.value| - 1] == '_' && k[|k| - |r.value|..] == r.value
    ensures r.Some? ==> '_' !in k[..|k| - |r.value| - 1]
    decreases |k|
  {
    if |k| == 0 then None
    else if k[0] == '_' then Some(k[1..])
    else
      var r := AfterPrefix(k[1..]);
      assert '_' in k <==> '_' in k[1..] by {
        assert k == [k[0]] + k[1..];
      }
      if r.Some? then
        assert k[1..][..|k| - 1 - |r.value| - 1] == k[1..|k| - |r.value| - 1];
        assert k[..|k| - |r.value| - 1] == [k[0]] + k[1..|k| - |r.value| - 1];
        r
      else r
  }

  /** The renamed row after its first columns; a column without '_' raises IndexError. */
  function Stripped<V>(d: seq<(string, V)>): Result<seq<(string, V)>, Error>
    decreases |d|
  {
    if |d| == 0 then Ok([])
    else
      match Stripped(d[..|d| - 1])
      case Err(e) => Err(e)
      case Ok(res) =>
        match AfterPrefix(Last(d).0)
        case None => Err(Crash("IndexError"))
        case Some(name) => Ok(Put(res, name, Last(d).1))
  }

  /** `strip_column_prefix` */
  method StripColumnPrefix<V>(d: seq<(string, V)>) returns (r: Result<seq<(string, V)>, Error>)
    ensures r == Stripped(d)
  {
    var res: seq<(string, V)> := [];
    for i := 0 to |d|
      invariant Stripped(d[..i]) == Ok(res)
    {
      assert d[..i + 1][..i] == d[..i];
      var (k, v) := d[i];
      var name := AfterPrefix(k);
      if name.None? {
        StrippedFailurePersists(d, i + 1);
        assert d[..|d|] == d;
        return Err(Crash("IndexError"));
      }
      res := Put(res, name.value, v);
    }
    assert d[..|d|] == d;
    return Ok(res);
  }

  /** Once a prefix of the row fails, the whole row fails. */
  lemma {:induction false} StrippedFailurePersists<V>(d: seq<(string, V)>, i: nat)
    requires i <= |d| && Stripped(d[..i]).Err?
    ensures Stripped(d) == Stripped(d[..i])
    decreases |d| - i
  {
    if i < |d| {
      assert d[..i + 1][..i] == d[..i];
      StrippedFailurePersists(d, i + 1);
    } else {
      assert d[..i] == d;
    }
  }

  /** The value of the last column whose name strips to `name`, if any. */
  function LastNamed<V>(d: seq<(string, V)>, name: string): Option<V>
    decreases |d|
  {
    if |d| == 0 then None
    else if AfterPrefix(Last(d).0) == Some(name) then Some(Last(d).1)
    else LastNamed(d[..|d| - 1], name)
  }

  /**
   * The renaming succeeds exactly when every column has a '_'. Then a name is present exactly
   * when some column strips to it, it reads the value of the last such column (a later column
   * wins), no name is repeated, and there are at most as many names as columns.
   */
  lemma {:induction false} StrippedMeaning<V>(d: seq<(string, V)>, name: string)
    ensures Stripped(d).Ok? <==> forall i :: 0 <= i < |d| ==> '_' in d[i].0
    ensures Stripped(d).Ok? ==>
      && Get(Stripped(d).value, name) == LastNamed(d, name)
      && DistinctKeys(Stripped(d).value)
      && |Stripped(d).value| <= |d|
    decreases |d|
  {
    if |d| > 0 {
      var init := d[..|d| - 1];
      StrippedMeaning(init, name);
      assert forall i :: 0 <= i < |init| ==> init[i] == d[i];
      match Stripped(init)
      case Err(_) =>
      case Ok(res) =>
        var k := AfterPrefix(Last(d).0);
        if k.Some? {
          PutMeaning(res, k.value, Last(d).1, name);
          PutDistinct(res, k.value, Last(d).1);
          PutLength(res, k.value, Last(d).1);
        }
    }
  }

  /** `d[k] = v` adds at most one entry. */
  lemma {:induction false} PutLength<K, V>(d: seq<(K, V)>, k: K, v: V)
    ensures |Put(d, k, v)| <= |d| + 1
    decreases |d|
  {
    if |d| > 0 && d[0].0 != k {
      PutLength(d[1..], k, v);
    }
  }

  const PrefixedRow: seq<(string, int)> := [("p_slug", 1), ("p_name", 2)]
  const CollidingRow: seq<(string, int)> := [("a_x", 1), ("b_x", 2)]

  /** "p_slug" becomes "slug" and "p_name" becomes "name", in order. */
  lemma StrippedRenames()
    ensures Stripped(PrefixedRow) == Ok([("slug", 1), ("name", 2)])
  {
    var d := PrefixedRow;
    AfterOnePrefix('p', "slug");
    AfterOnePrefix('p', "name");
    assert d[..1] == [("p_slug", 1)] && |d[..1][..0]| == 0;
    assert Stripped(d[..1]) == Ok([("slug", 1)]);
    assert Last(d) == ("p_name", 2) && d[..|d| - 1] == d[..1];
    assert "slug"[0] != "name"[0];
    assert Put([("slug", 1)], "name", 2) == [("slug", 1), ("name", 2)];
  }

  /** A one-letter prefix and its underscore are stripped. */
  lemma AfterOnePrefix(c: char, rest: string)
    requires c != '_'
    ensures AfterPrefix([c, '_'] + rest) == Some(rest)
  {
    var k := [c, '_'] + rest;
    assert k[1..] == ['_'] + rest && k[1..][1..] == rest;
  }

  /** Of two columns stripping to the same name the later one wins. */
  lemma StrippedLaterWins()
    ensures Stripped(CollidingRow) == Ok([("x", 2)])
  {
    var d := CollidingRow;
    AfterOnePrefix('a', "x");
    AfterOnePrefix('b', "x");
    assert d[..1] == [("a_x", 1)] && |d[..1][..0]| == 0;
    assert Stripped(d[..1]) == Ok([("x", 1)]);
    assert Last(d) == ("b_x", 2) && d[..|d| - 1] == d[..1];
    assert Put([("x", 1)], "x", 2) == [("x", 2)];
  }
}
