// Sequence helpers shared by the lookups of the model: JavaScript's
// `Array.prototype.find` (first element that satisfies a predicate) and
// `Array.prototype.filter` (order-preserving selection).
module Seqs {
  import opened Wrappers

  /** Index of the first element of `s` that satisfies `p`, as `find`/`findIndex` return it. */
  function FindIndex<T>(s: seq<T>, p: T -> bool): (r: Option<nat>)
    ensures r.Some? ==> r.value < |s| && p(s[r.value])
    ensures r.Some? ==> forall j :: 0 <= j < r.value ==> !p(s[j])
    ensures r.None? <==> forall j :: 0 <= j < |s| ==> !p(s[j])
  {
    if |s| == 0 then None
    else if p(s[0]) then Some(0)
    else
      match FindIndex(s[1..], p)
      case None => None
      case Some(k) => Some(k + 1)
  }

  /** The first element of `s` that satisfies `p`, or `None` (JavaScript's `undefined`). */
  function Find<T>(s: seq<T>, p: T -> bool): (r: Option<T>)
    ensures r.Some? <==> exists j :: 0 <= j < |s| && p(s[j])
    ensures r.Some? ==> r.value in s && p(r.value)
  {
    match FindIndex(s, p)
    case None => None
    case Some(k) => Some(s[k])
  }

  function Shift(r: Option<nat>, n: nat): Option<nat>
  {
    match r
    case None => None
    case Some(j) => Some(j + n)
  }

  lemma {:induction false} FindIndexAppend<T>(s: seq<T>, t: seq<T>, p: T -> bool)
    ensures FindIndex(s + t, p) == if FindIndex(s, p).Some? then FindIndex(s, p) else Shift(FindIndex(t, p), |s|)
  {
    if |s| == 0 {
      assert s + t == t;
    } else {
      assert (s + t)[0] == s[0];
      if !p(s[0]) {
        assert (s + t)[1..] == s[1..] + t;
        FindIndexAppend(s[1..], t, p);
      }
    }
  }

  /** Searching a concatenation finds the first part's match, if it has one, else the second part's. */
  lemma FindAppend<T>(s: seq<T>, t: seq<T>, p: T -> bool)
    ensures Find(s + t, p) == if Find(s, p).Some? then Find(s, p) else Find(t, p)
  {
    FindIndexAppend(s, t, p);
    var j := FindIndex(t, p);
    if FindIndex(s, p).None? && j.Some? {
      assert (s + t)[j.value + |s|] == t[j.value];
    }
  }

  /** `xs.map(f)` where `f` may throw: every result when no call throws, otherwise an error. */
  function MapResult<A, B, E>(xs: seq<A>, f: A -> Result<B, E>): (r: Result<seq<B>, E>)
    ensures r.Ok? <==> forall k :: 0 <= k < |xs| ==> f(xs[k]).Ok?
    ensures r.Ok? ==> |r.value| == |xs| && forall k :: 0 <= k < |xs| ==> r.value[k] == f(xs[k]).value
  {
    if |xs| == 0 then Ok([])
    else if f(xs[0]).Err? then Err(f(xs[0]).error)
    else
      var rest := MapResult(xs[1..], f);
      assert forall k :: 1 <= k < |xs| ==> xs[k] == xs[1..][k - 1];
      if rest.Err? then Err(rest.error) else Ok([f(xs[0]).value] + rest.value)
  }

  /** The error `MapResult` reports is the one of the first call that throws. */
  lemma {:induction false} MapResultFirstError<A, B, E>(xs: seq<A>, f: A -> Result<B, E>)
    requires MapResult(xs, f).Err?
    ensures exists k :: 0 <= k < |xs| && (forall j :: 0 <= j < k ==> f(xs[j]).Ok?) &&
                        f(xs[k]).Err? && MapResult(xs, f).error == f(xs[k]).error
  {
    if f(xs[0]).Err? {
      assert MapResult(xs, f).error == f(xs[0]).error;
    } else {
      MapResultFirstError(xs[1..], f);
      var k :| 0 <= k < |xs| - 1 && (forall j :: 0 <= j < k ==> f(xs[1..][j]).Ok?) &&
               f(xs[1..][k]).Err? && MapResult(xs[1..], f).error == f(xs[1..][k]).error;
      assert xs[k + 1] == xs[1..][k];
      assert forall j :: 1 <= j < k + 1 ==> xs[j] == xs[1..][j - 1];
    }
  }

  /** The elements of `s` that satisfy `p`, in their original order. */
  function Filter<T(!new)>(s: seq<T>, p: T -> bool): (r: seq<T>)
    ensures |r| <= |s|
    ensures forall x :: x in r <==> x in s && p(x)
  {
    if |s| == 0 then []
    else if p(s[0]) then [s[0]] + Filter(s[1..], p)
    else Filter(s[1..], p)
  }

  lemma {:induction false} FilterAll<T(!new)>(s: seq<T>, p: T -> bool)
    requires forall x :: x in s ==> p(x)
    ensures Filter(s, p) == s
  {
    if |s| > 0 {
      FilterAll(s[1..], p);
    }
  }

  lemma {:induction false} FilterAppend<T(!new)>(s: seq<T>, t: seq<T>, p: T -> bool)
    ensures Filter(s + t, p) == Filter(s, p) + Filter(t, p)
  {
    if |s| == 0 {
      assert s + t == t;
    } else {
      assert (s + t)[1..] == s[1..] + t;
      FilterAppend(s[1..], t, p);
    }
  }

  // ---- association lists: JavaScript objects whose key order matters ----

  function Keys<K, V>(a: seq<(K, V)>): (r: seq<K>)
    ensures |r| == |a|
    ensures forall k :: 0 <= k < |a| ==> r[k] == a[k].0
  {
    if |a| == 0 then [] else [a[0].0] + Keys(a[1..])
  }

  /** `obj[key]`: the value of the first entry with that key, `None` when absent. */
  function Get<K(==), V>(a: seq<(K, V)>, key: K): (r: Option<V>)
    ensures r.None? <==> key !in Keys(a)
    ensures r.Some? ==> (key, r.value) in a
  {
    if |a| == 0 then None
    else if a[0].0 == key then Some(a[0].1)
    else Get(a[1..], key)
  }

  /**
   * `{...obj, [key]: value}`: an existing key keeps its position and takes
   * the new value, a new key is appended.
   */
  function Put<K(==), V>(a: seq<(K, V)>, key: K, value: V): seq<(K, V)>
  {
    if |a| == 0 then [(key, value)]
    else if a[0].0 == key then [(key, value)] + a[1..]
    else [a[0]] + Put(a[1..], key, value)
  }

  /** After a put the key reads back the new value and every other key reads as before. */
  lemma {:induction false} PutGet<K, V>(a: seq<(K, V)>, key: K, value: V, other: K)
    ensures Get(Put(a, key, value), key) == Some(value)
    ensures other != key ==> Get(Put(a, key, value), other) == Get(a, other)
  {
    var r := Put(a, key, value);
    if |a| > 0 {
      if a[0].0 == key {
        assert r[1..] == a[1..];
      } else {
        PutGet(a[1..], key, value, other);
        assert r[1..] == Put(a[1..], key, value);
      }
    }
  }

  /** A put keeps the key order, appending a key that was absent. */
  lemma {:induction false} PutKeys<K, V>(a: seq<(K, V)>, key: K, value: V)
    ensures key in Keys(a) ==> Keys(Put(a, key, value)) == Keys(a)
    ensures key !in Keys(a) ==> Keys(Put(a, key, value)) == Keys(a) + [key]
  {
    if |a| > 0 && a[0].0 != key {
      PutKeys(a[1..], key, value);
      assert Keys(a) == [a[0].0] + Keys(a[1..]);
    }
  }

  /** A second put under the same key overwrites the first, in place. */
  lemma {:induction false} PutTwice<K, V>(a: seq<(K, V)>, key: K, v: V, w: V)
    ensures Put(Put(a, key, v), key, w) == Put(a, key, w)
  {
    if |a| > 0 && a[0].0 != key {
      PutTwice(a[1..], key, v, w);
      assert Put(a, key, v)[1..] == Put(a[1..], key, v);
    }
  }
}
