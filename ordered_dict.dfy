/**
 * Python dicts as insertion-ordered association lists. Iteration follows insertion order;
 * a key's value is its first binding; `d[k] = v` replaces that binding in place or appends.
 */
module OrderedDict {
  import opened Wrappers

  function Keys<K, V>(d: seq<(K, V)>): (r: seq<K>)
    ensures |r| == |d|
    ensures forall i :: 0 <= i < |d| ==> r[i] == d[i].0
  {
    seq(|d|, i requires 0 <= i < |d| => d[i].0)
  }

  predicate DistinctKeys<K(==), V>(d: seq<(K, V)>) {
    forall i, j :: 0 <= i < j < |d| ==> d[i].0 != d[j].0
  }

  lemma KeysCons<K, V>(d: seq<(K, V)>)
    requires |d| > 0
    ensures Keys(d) == [d[0].0] + Keys(d[1..])
  {
  }

  /** `d.get(k)` as an Option. */
  function Get<K(==), V>(d: seq<(K, V)>, k: K): (r: Option<V>)
    ensures r.Some? <==> k in Keys(d)
    ensures r.Some? ==> (k, r.value) in d
    decreases |d|
  {
    if |d| == 0 then None
    else
      KeysCons(d);
      if d[0].0 == k then Some(d[0].1) else Get(d[1..], k)
  }

  /** `d.get(k, default)` */
  function GetOr<K(==), V>(d: seq<(K, V)>, k: K, default: V): V {
    Get(d, k).GetOr(default)
  }

  /** In a dict without repeated keys every entry is what its key reads. */
  lemma {:induction false} GetEntry<K, V>(d: seq<(K, V)>, i: nat)
    requires DistinctKeys(d) && i < |d|
    ensures Get(d, d[i].0) == Some(d[i].1)
    decreases i
  {
    if i > 0 {
      GetEntry(d[1..], i - 1);
    }
  }

  /** `d[k] = v` */
  function Put<K(==), V>(d: seq<(K, V)>, k: K, v: V): (r: seq<(K, V)>)
    ensures |r| > 0
    decreases |d|
  {
    if |d| == 0 then [(k, v)]
    else if d[0].0 == k then [(k, v)] + d[1..]
    else [d[0]] + Put(d[1..], k, v)
  }

  /** Every entry after `d[k] = v` is an old entry or the new binding. */
  lemma {:induction false} PutEntries<K, V>(d: seq<(K, V)>, k: K, v: V)
    ensures forall e :: e in Put(d, k, v) ==> e in d || e == (k, v)
    decreases |d|
  {
    if |d| > 0 && d[0].0 != k {
      PutEntries(d[1..], k, v);
    }
  }

  /** After `d[k] = v`: k reads v, every other key reads as before, no key is repeated. */
  lemma {:induction false} PutMeaning<K, V>(d: seq<(K, V)>, k: K, v: V, j: K)
    ensures j in Keys(Put(d, k, v)) <==> j in Keys(d) || j == k
    ensures Get(Put(d, k, v), j) == if j == k then Some(v) else Get(d, j)
    decreases |d|
  {
    if |d| > 0 {
      KeysCons(d);
      KeysCons(Put(d, k, v));
      if d[0].0 != k {
        PutMeaning(d[1..], k, v, j);
        assert Put(d, k, v)[1..] == Put(d[1..], k, v);
      } else {
        assert Put(d, k, v)[1..] == d[1..];
      }
    } else {
      assert Keys(Put(d, k, v)) == [k];
    }
  }

  /** Setting a key that is not there appends its binding. */
  lemma {:induction false} PutAbsent<K, V>(d: seq<(K, V)>, k: K, v: V)
    requires k !in Keys(d)
    ensures Put(d, k, v) == d + [(k, v)]
    decreases |d|
  {
    if |d| > 0 {
      KeysCons(d);
      PutAbsent(d[1..], k, v);
      assert d == [d[0]] + d[1..];
    }
  }

  /** Setting a key never repeats one. */
  lemma {:induction false} PutDistinct<K, V>(d: seq<(K, V)>, k: K, v: V)
    requires DistinctKeys(d)
    ensures DistinctKeys(Put(d, k, v))
    decreases |d|
  {
    if |d| > 0 && d[0].0 != k {
      PutDistinct(d[1..], k, v);
      var r := Put(d, k, v);
      forall j | 0 < j < |r|
        ensures r[0].0 != r[j].0
      {
        PutMeaning(d[1..], k, v, r[j].0);
        assert r[j].0 in Keys(Put(d[1..], k, v)) by {
          assert r[j] == Put(d[1..], k, v)[j - 1];
        }
        if r[j].0 in Keys(d[1..]) {
          var i :| 0 <= i < |Keys(d[1..])| && Keys(d[1..])[i] == r[j].0;
          assert d[i + 1].0 == r[j].0;
        }
      }
    }
  }

  /** `d.update(other)` */
  function Update<K(==), V>(d: seq<(K, V)>, other: seq<(K, V)>): seq<(K, V)>
    decreases |other|
  {
    if |other| == 0 then d else Update(Put(d, other[0].0, other[0].1), other[1..])
  }

  /** After `d.update(other)`, the keys of `other` read from `other` and the rest from `d`. */
  lemma {:induction false} GetUpdate<K, V>(d: seq<(K, V)>, other: seq<(K, V)>, j: K)
    requires DistinctKeys(other)
    ensures Get(Update(d, other), j) == if j in Keys(other) then Get(other, j) else Get(d, j)
    decreases |other|
  {
    if |other| > 0 {
      KeysCons(other);
      GetUpdate(Put(d, other[0].0, other[0].1), other[1..], j);
      PutMeaning(d, other[0].0, other[0].1, j);
    }
  }

  /** `d.pop(k, None)` */
  function Remove<K(==), V>(d: seq<(K, V)>, k: K): (r: seq<(K, V)>)
    ensures k !in Keys(r)
    decreases |d|
  {
    if |d| == 0 then []
    else
      KeysCons(d);
      var rest := Remove(d[1..], k);
      if d[0].0 == k then rest
      else
        KeysCons([d[0]] + rest);
        assert ([d[0]] + rest)[1..] == rest;
        [d[0]] + rest
  }

  /** Popping k leaves every other key reading as before. */
  lemma {:induction false} GetRemove<K, V>(d: seq<(K, V)>, k: K, j: K)
    requires j != k
    ensures Get(Remove(d, k), j) == Get(d, j)
    decreases |d|
  {
    if |d| > 0 {
      GetRemove(d[1..], k, j);
      if d[0].0 != k {
        assert ([d[0]] + Remove(d[1..], k))[1..] == Remove(d[1..], k);
      }
    }
  }

  /** Popping an absent key with a default leaves the dict as it was. */
  lemma {:induction false} RemoveAbsent<K, V>(d: seq<(K, V)>, k: K)
    requires k !in Keys(d)
    ensures Remove(d, k) == d
    decreases |d|
  {
    if |d| > 0 {
      KeysCons(d);
      RemoveAbsent(d[1..], k);
      assert [d[0]] + d[1..] == d;
    }
  }
}
