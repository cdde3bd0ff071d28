/**
 * Python's insertion-ordered `dict`, as a sequence of key/value pairs, with
 * the `setdefault` and `fromkeys` operations the plugins rely on.
 */
module PyDict {
  import opened Wrappers

  // ---------------------------------------------------------------------
  // Ordered dictionaries
  // ---------------------------------------------------------------------

  /** The keys of `d`, in insertion order. */
  function Keys<K, V>(d: seq<(K, V)>): (ks: seq<K>)
    ensures |ks| == |d| && forall i :: 0 <= i < |d| ==> ks[i] == d[i].0
  {
    seq(|d|, i requires 0 <= i < |d| => d[i].0)
  }

  /** A well-formed dict: no key appears twice. */
  predicate DistinctKeys<K(==), V>(d: seq<(K, V)>) {
    forall i, j :: 0 <= i < j < |d| ==> d[i].0 != d[j].0
  }

  /** `d.get(k)`. */
  function Get<K(==), V>(d: seq<(K, V)>, k: K): Option<V>
  {
    if d == [] then None
    else if d[0].0 == k then Some(d[0].1)
    else Get(d[1..], k)
  }

  /** `d.setdefault(k, v)`: an existing key keeps its value and place; a new one goes last. */
  function SetDefault<K(==), V>(d: seq<(K, V)>, k: K, v: V): seq<(K, V)> {
    if Get(d, k).Some? then d else d + [(k, v)]
  }

  /** The mapping a dict stands for. */
  function ToMap<K(==), V>(d: seq<(K, V)>): map<K, V>
  {
    if d == [] then map[] else ToMap(d[..|d| - 1])[d[|d| - 1].0 := d[|d| - 1].1]
  }

  /** `Get` finds a key exactly when it is among the keys, and then the value stored with it. */
  lemma {:induction false} GetFinds<K, V>(d: seq<(K, V)>, k: K)
    requires DistinctKeys(d)
    ensures Get(d, k).None? <==> k !in Keys(d)
    ensures forall i :: 0 <= i < |d| && d[i].0 == k ==> Get(d, k) == Some(d[i].1)
  {
    if d != [] {
      GetFinds(d[1..], k);
      assert Keys(d) == [d[0].0] + Keys(d[1..]);
      forall i | 0 < i < |d| && d[i].0 == k
        ensures Get(d, k) == Some(d[i].1)
      {
        assert d[1..][i - 1] == d[i];
      }
    }
  }

  /** Appending a new key leaves the other lookups alone and finds the new value. */
  lemma {:induction false} GetAppend<K, V>(d: seq<(K, V)>, k: K, v: V, q: K)
    ensures Get(d + [(k, v)], q) == if Get(d, q).Some? then Get(d, q) else if q == k then Some(v) else None
  {
    if d == [] {
      assert d + [(k, v)] == [(k, v)];
    } else {
      assert (d + [(k, v)])[1..] == d[1..] + [(k, v)];
      GetAppend(d[1..], k, v, q);
    }
  }

  /**
   * `setdefault` never overwrites: an existing key keeps its value, a new
   * key gets `v`, and no other key changes.
   */
  lemma {:induction false} SetDefaultGet<K, V>(d: seq<(K, V)>, k: K, v: V, q: K)
    ensures Get(SetDefault(d, k, v), q) == if q == k && Get(d, k).None? then Some(v) else Get(d, q)
  {
    if Get(d, k).None? {
      GetAppend(d, k, v, q);
    }
  }

  /** `setdefault` keeps the keys distinct. */
  lemma {:induction false} SetDefaultDistinct<K, V>(d: seq<(K, V)>, k: K, v: V)
    requires DistinctKeys(d)
    ensures DistinctKeys(SetDefault(d, k, v))
  {
    GetFinds(d, k);
  }

  /** The mapping of a dict with distinct keys holds what `Get` finds. */
  lemma {:induction false} ToMapGet<K, V>(d: seq<(K, V)>, k: K)
    requires DistinctKeys(d)
    ensures k in ToMap(d) <==> Get(d, k).Some?
    ensures k in ToMap(d) ==> ToMap(d)[k] == Get(d, k).value
    decreases |d|
  {
    if d != [] {
      var init, last := d[..|d| - 1], d[|d| - 1];
      assert d == init + [last];
      ToMapGet(init, k);
      GetAppend(init, last.0, last.1, k);
      if k == last.0 {
        GetFinds(init, k);
        assert forall i :: 0 <= i < |init| ==> Keys(init)[i] == d[i].0 != k;
      }
    }
  }

  // ---------------------------------------------------------------------
  // Dropping duplicates: `tuple(dict.fromkeys(xs))`
  // ---------------------------------------------------------------------

  predicate NoDups<T(==)>(s: seq<T>) {
    forall i, j :: 0 <= i < j < |s| ==> s[i] != s[j]
  }

  /** The distinct elements of `s`, each where it first occurs. */
  function Dedupe<T(==)>(s: seq<T>): seq<T>
  {
    if s == [] then []
    else
      var kept := Dedupe(s[..|s| - 1]);
      if s[|s| - 1] in kept then kept else kept + [s[|s| - 1]]
  }

  /** The elements of `b`, in order and once each, that are not in `a`. */
  function NewIn<T(==)>(a: seq<T>, b: seq<T>): seq<T>
  {
    if b == [] then []
    else
      var kept := NewIn(a, b[..|b| - 1]);
      var x := b[|b| - 1];
      if x in a || x in kept then kept else kept + [x]
  }

  /** `Dedupe` keeps every element, adds none and repeats none. */
  lemma {:induction false} DedupeMeaning<T>(s: seq<T>)
    ensures NoDups(Dedupe(s))
    ensures forall x :: x in Dedupe(s) <==> x in s
  {
    if s != [] {
      var init := s[..|s| - 1];
      DedupeMeaning(init);
      assert s == init + [s[|s| - 1]];
    }
  }

  /** A list without duplicates is its own `Dedupe`. */
  lemma {:induction false} DedupeDistinct<T>(s: seq<T>)
    requires NoDups(s)
    ensures Dedupe(s) == s
  {
    if s != [] {
      var init := s[..|s| - 1];
      DedupeDistinct(init);
      assert forall i :: 0 <= i < |init| ==> init[i] == s[i] != s[|s| - 1];
      assert s == init + [s[|s| - 1]];
    }
  }

  /** `NewIn(a, b)` repeats nothing, and holds exactly the elements of `b` not in `a`. */
  lemma {:induction false} NewInMeaning<T>(a: seq<T>, b: seq<T>)
    ensures NoDups(NewIn(a, b))
    ensures forall x :: x in NewIn(a, b) <==> x in b && x !in a
  {
    if b != [] {
      var init := b[..|b| - 1];
      NewInMeaning(a, init);
      assert b == init + [b[|b| - 1]];
    }
  }

  /** Nothing is new when every element of `b` is already in `a`. */
  lemma {:induction false} NewInNothing<T>(a: seq<T>, b: seq<T>)
    requires forall x :: x in b ==> x in a
    ensures NewIn(a, b) == []
  {
    if b != [] {
      NewInNothing(a, b[..|b| - 1]);
    }
  }

  /** Deduplicating a concatenation: the distinct elements of `a` first, then what `b` adds. */
  lemma {:induction false} DedupeAppend<T>(a: seq<T>, b: seq<T>)
    ensures Dedupe(a + b) == Dedupe(a) + NewIn(a, b)
    decreases |b|
  {
    if b == [] {
      assert a + b == a;
    } else {
      var init, x := b[..|b| - 1], b[|b| - 1];
      assert (a + b)[..|a + b| - 1] == a + init;
      DedupeAppend(a, init);
      DedupeMeaning(a);
      assert x in Dedupe(a) + NewIn(a, init) <==> x in a || x in NewIn(a, init);
    }
  }
}
