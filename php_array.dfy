/**
 * PHP's ordered associative arrays with string keys. An array is a sequence of
 * (key, value) entries in insertion order whose keys are pairwise distinct.
 * `$a[$k] = $v` replaces the value of an existing key in place and appends a new
 * key at the end; `array_key_exists` and `$a[$k]` read it.
 */
module PhpArray {
  import opened Wrappers

  type Assoc<V> = seq<(string, V)>

  predicate UniqueKeys<V>(a: Assoc<V>) {
    forall i, j :: 0 <= i < j < |a| ==> a[i].0 != a[j].0
  }

  /** The keys of an array (also used for a list of pairs that may repeat a key). */
  function Keys<V>(a: Assoc<V>): (r: set<string>)
    ensures forall k :: k in r <==> exists i :: 0 <= i < |a| && a[i].0 == k
  {
    if a == [] then {}
    else
      var r := {a[0].0} + Keys(a[1..]);
      assert forall i :: 1 <= i < |a| ==> a[i] == a[1..][i - 1];
      r
  }

  /** The values in array order (what a `foreach ($a as $v)` visits). */
  function Values<V>(a: Assoc<V>): (r: seq<V>)
    ensures |r| == |a| && forall i :: 0 <= i < |a| ==> r[i] == a[i].1
  {
    seq(|a|, i requires 0 <= i < |a| => a[i].1)
  }

  /** `array_key_exists($k, $a) ? $a[$k] : null`. */
  function Get<V>(a: Assoc<V>, k: string): (r: Option<V>)
    ensures r.None? <==> k !in Keys(a)
    ensures UniqueKeys(a) ==> forall i :: 0 <= i < |a| && a[i].0 == k ==> r == Some(a[i].1)
  {
    if a == [] then None
    else if a[0].0 == k then Some(a[0].1)
    else
      assert forall i :: 1 <= i < |a| ==> a[i] == a[1..][i - 1];
      Get(a[1..], k)
  }

  /** `$a[$k] = $v`: an existing key keeps its place and gets the new value, a new key is appended. */
  function Put<V>(a: Assoc<V>, k: string, v: V): (r: Assoc<V>)
    requires UniqueKeys(a)
    ensures UniqueKeys(r)
    ensures k in Keys(a) ==> |r| == |a| && forall i :: 0 <= i < |a| ==> r[i] == (if a[i].0 == k then (k, v) else a[i])
    ensures k !in Keys(a) ==> r == a + [(k, v)]
  {
    if a == [] then [(k, v)]
    else if a[0].0 == k then
      assert forall i :: 1 <= i < |a| ==> a[i] == a[1..][i - 1];
      [(k, v)] + a[1..]
    else
      var t := Put(a[1..], k, v);
      assert forall i :: 1 <= i < |a| ==> a[i] == a[1..][i - 1];
      [a[0]] + t
  }

  /** After `$a[$k] = $v`, key k reads v and every other key reads what it read before. */
  lemma PutGet<V>(a: Assoc<V>, k: string, v: V)
    requires UniqueKeys(a)
    ensures forall k' :: Get(Put(a, k, v), k') == if k' == k then Some(v) else Get(a, k')
  {
    var r := Put(a, k, v);
    forall k' ensures Get(r, k') == if k' == k then Some(v) else Get(a, k') {
      if k' == k {
        if k in Keys(a) {
          var i :| 0 <= i < |a| && a[i].0 == k;
          assert r[i] == (k, v);
        } else {
          assert r[|a|] == (k, v);
        }
      } else if k' in Keys(a) {
        var i :| 0 <= i < |a| && a[i].0 == k';
        assert r[i] == a[i];
      } else {
        assert forall i :: 0 <= i < |r| ==> r[i].0 != k';
      }
    }
  }

  /** The index of the last pair with key k, if there is one. */
  function LastIndex<V>(pairs: seq<(string, V)>, k: string): (r: Option<nat>)
    ensures r.Some? ==> r.value < |pairs| && pairs[r.value].0 == k && forall j :: r.value < j < |pairs| ==> pairs[j].0 != k
    ensures r.None? ==> forall j :: 0 <= j < |pairs| ==> pairs[j].0 != k
  {
    if pairs == [] then None
    else if pairs[|pairs| - 1].0 == k then Some(|pairs| - 1)
    else LastIndex(pairs[..|pairs| - 1], k)
  }

  /** The value of the last pair with key k, if there is one. */
  function LastValue<V>(pairs: seq<(string, V)>, k: string): (r: Option<V>)
    ensures r.None? <==> k !in Keys(pairs)
    ensures r.Some? ==> exists i :: 0 <= i < |pairs| && pairs[i].0 == k && pairs[i].1 == r.value &&
                                    forall j :: i < j < |pairs| ==> pairs[j].0 != k
  {
    match LastIndex(pairs, k)
    case None => None
    case Some(i) => Some(pairs[i].1)
  }

  /**
   * The array a loop `foreach ($items as $x) { $a[key($x)] = value($x); }` builds,
   * given the (key, value) pair of every item in order: its keys are those of the
   * items, and a repeated key holds the value of the item visited last.
   */
  function Build<V>(pairs: seq<(string, V)>): (r: Assoc<V>)
    ensures UniqueKeys(r)
    ensures forall k :: Get(r, k) == LastValue(pairs, k)
    ensures Keys(r) == Keys(pairs)
    ensures forall i :: 0 <= i < |r| ==> r[i] in pairs
  {
    if pairs == [] then []
    else
      var init, last := pairs[..|pairs| - 1], pairs[|pairs| - 1];
      assert pairs == init + [last];
      var b := Build(init);
      BuildStep(init, last, b);
      Put(b, last.0, last.1)
  }

  /** One visit of the loop Build models: putting the next pair keeps the array in step with the pairs seen. */
  lemma BuildStep<V>(init: seq<(string, V)>, last: (string, V), b: Assoc<V>)
    requires UniqueKeys(b)
    requires forall k :: Get(b, k) == LastValue(init, k)
    requires forall i :: 0 <= i < |b| ==> b[i] in init
    ensures forall k :: Get(Put(b, last.0, last.1), k) == LastValue(init + [last], k)
    ensures Keys(Put(b, last.0, last.1)) == Keys(init + [last])
    ensures forall i :: 0 <= i < |Put(b, last.0, last.1)| ==> Put(b, last.0, last.1)[i] in init + [last]
  {
    var pairs := init + [last];
    var r := Put(b, last.0, last.1);
    PutGet(b, last.0, last.1);
    forall k ensures Get(r, k) == LastValue(pairs, k) {
      LastValueSnoc(init, last, k);
    }
    forall i | 0 <= i < |r| ensures r[i] in pairs {
      if r[i] != last { assert r[i] in b; assert r[i] in init; }
    }
    forall k ensures k in Keys(r) <==> k in Keys(pairs) {
      assert Get(r, k) == LastValue(pairs, k);
    }
  }

  lemma LastValueSnoc<V>(init: seq<(string, V)>, last: (string, V), k: string)
    ensures LastValue(init + [last], k) == if k == last.0 then Some(last.1) else LastValue(init, k)
  {
    assert (init + [last])[..|init|] == init;
  }

  /** The (key, value) pair of every item, in order. */
  function Pairs<T, V>(xs: seq<T>, key: T -> string, value: T -> V): (r: seq<(string, V)>)
    ensures |r| == |xs| && forall i :: 0 <= i < |xs| ==> r[i] == (key(xs[i]), value(xs[i]))
  {
    seq(|xs|, i requires 0 <= i < |xs| => (key(xs[i]), value(xs[i])))
  }

  /**
   * The array `foreach ($xs as $x) { $a[key($x)] = value($x); }` builds: its keys
   * are the keys of the items, and a key shared by several items holds the value
   * of the last of them.
   */
  function BuildBy<T, V>(xs: seq<T>, key: T -> string, value: T -> V): (r: Assoc<V>)
    ensures UniqueKeys(r)
    ensures Keys(r) == set i | 0 <= i < |xs| :: key(xs[i])
    ensures forall k :: k in Keys(r) ==>
              exists i :: 0 <= i < |xs| && key(xs[i]) == k && Get(r, k) == Some(value(xs[i])) &&
                          forall j :: i < j < |xs| ==> key(xs[j]) != k
    ensures forall i :: 0 <= i < |r| ==> r[i] in Pairs(xs, key, value)
  {
    ItemKeysAreKeys(xs, key, value);
    forall k | k in Keys(Build(Pairs(xs, key, value)))
      ensures exists i :: 0 <= i < |xs| && key(xs[i]) == k && Get(Build(Pairs(xs, key, value)), k) == Some(value(xs[i])) &&
                          forall j :: i < j < |xs| ==> key(xs[j]) != k
    {
      LaterItemWins(xs, key, value, k);
    }
    Build(Pairs(xs, key, value))
  }

  lemma ItemKeysAreKeys<T, V>(xs: seq<T>, key: T -> string, value: T -> V)
    ensures Keys(Build(Pairs(xs, key, value))) == set i | 0 <= i < |xs| :: key(xs[i])
  {
    var pairs := Pairs(xs, key, value);
    forall k ensures k in Keys(pairs) <==> k in set i | 0 <= i < |xs| :: key(xs[i]) {
      if k in Keys(pairs) {
        var i :| 0 <= i < |pairs| && pairs[i].0 == k;
        assert key(xs[i]) == k;
      }
      if k in set i | 0 <= i < |xs| :: key(xs[i]) {
        var i :| 0 <= i < |xs| && key(xs[i]) == k;
        assert pairs[i].0 == k;
      }
    }
  }

  lemma LaterItemWins<T, V>(xs: seq<T>, key: T -> string, value: T -> V, k: string)
    requires k in Keys(Build(Pairs(xs, key, value)))
    ensures exists i :: 0 <= i < |xs| && key(xs[i]) == k && Get(Build(Pairs(xs, key, value)), k) == Some(value(xs[i])) &&
                        forall j :: i < j < |xs| ==> key(xs[j]) != k
  {
    var pairs := Pairs(xs, key, value);
    assert Get(Build(pairs), k) == LastValue(pairs, k);
    var i := LastIndex(pairs, k).value;
    assert LastValue(pairs, k) == Some(value(xs[i]));
    assert forall j :: i < j < |xs| ==> key(xs[j]) != k by {
      forall j | i < j < |xs| ensures key(xs[j]) != k {
        assert pairs[j].0 != k;
      }
    }
  }

  /** Index of the first element satisfying p: what a `foreach` that returns on the first hit finds. */
  function FirstWhere<T>(s: seq<T>, p: T -> bool): (r: Option<nat>)
    ensures r.Some? ==> r.value < |s| && p(s[r.value]) && forall j :: 0 <= j < r.value ==> !p(s[j])
    ensures r.None? <==> forall j :: 0 <= j < |s| ==> !p(s[j])
  {
    if s == [] then None
    else if p(s[0]) then Some(0)
    else
      match FirstWhere(s[1..], p)
      case None => None
      case Some(i) => Some(i + 1)
  }
}
