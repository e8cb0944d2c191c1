/**
 * Python dictionaries remember insertion order. A registry is modelled as a `map` together
 * with `order`, the sequence of its keys in insertion order, and the helpers here keep the
 * two in step: assigning a new key appends it, assigning an existing key keeps its place,
 * and deleting a key removes it from the sequence.
 */
module OrderedKeys {

  predicate Distinct<K(==,!new)>(s: seq<K>) {
    forall i, j :: 0 <= i < j < |s| ==> s[i] != s[j]
  }

  /** `order` lists exactly the keys of `m`, each once. */
  ghost predicate Mirrors<K(!new), V>(order: seq<K>, m: map<K, V>) {
    Distinct(order) && forall k :: k in order <==> k in m
  }

  /** The key order after `d[k] = v`: a new key goes last, an existing key keeps its place. */
  function Put<K(==,!new)>(order: seq<K>, k: K): (r: seq<K>)
    requires Distinct(order)
    ensures Distinct(r)
    ensures forall x :: x in r <==> x in order || x == k
    ensures k !in order ==> r == order + [k]
    ensures k in order ==> r == order
  {
    if k in order then order else order + [k]
  }

  /** The keys of `order` that lie in `keep`, in their original order. */
  function Restrict<K(==,!new)>(order: seq<K>, keep: set<K>): (r: seq<K>)
    ensures forall x :: x in r <==> x in order && x in keep
    ensures |r| <= |order|
    ensures Distinct(order) ==> Distinct(r)
  {
    if order == [] then []
    else
      var init := Restrict(order[..|order| - 1], keep);
      var last := order[|order| - 1];
      assert forall x :: x in order <==> x in order[..|order| - 1] || x == last;
      if last in keep then init + [last] else init
  }

  /** Restricting one more key of `s`. */
  lemma RestrictSnoc<K(!new)>(s: seq<K>, keep: set<K>, i: nat)
    requires i < |s|
    ensures Restrict(s[..i + 1], keep) == Restrict(s[..i], keep) + (if s[i] in keep then [s[i]] else [])
  {
    assert s[..i + 1][..i] == s[..i];
  }

  /** The keys listed in `s`, as a set. */
  ghost function Elems<K(!new)>(s: seq<K>): (r: set<K>)
    ensures forall x :: x in r <==> x in s
  {
    set x | x in s
  }

  lemma ElemsSnoc<K(!new)>(s: seq<K>, i: nat)
    requires i < |s|
    ensures Elems(s[..i + 1]) == Elems(s[..i]) + {s[i]}
  {
    assert s[..i + 1] == s[..i] + [s[i]];
  }

  /** The key order after `del d[k]`. */
  function Remove<K(==,!new)>(order: seq<K>, k: K): (r: seq<K>)
    ensures forall x :: x in r <==> x in order && x != k
    ensures Distinct(order) ==> Distinct(r)
  {
    Restrict(order, set x | x in order && x != k)
  }

  /** Deleting one more key from a restricted order is restricting by one key fewer. */
  lemma {:induction false} RestrictMinus<K(!new)>(order: seq<K>, keep: set<K>, k: K)
    ensures Remove(Restrict(order, keep), k) == Restrict(order, keep - {k})
  {
    RestrictTwice(order, keep, set x | x in Restrict(order, keep) && x != k);
    RestrictSame(order, keep * (set x | x in Restrict(order, keep) && x != k), keep - {k});
  }

  lemma {:induction false} RestrictTwice<K(!new)>(order: seq<K>, a: set<K>, b: set<K>)
    ensures Restrict(Restrict(order, a), b) == Restrict(order, a * b)
    decreases |order|
  {
    if order != [] {
      var init := order[..|order| - 1];
      RestrictTwice(init, a, b);
      var ra := Restrict(init, a);
      var last := order[|order| - 1];
      if last in a {
        assert Restrict(order, a) == ra + [last];
        assert (ra + [last])[..|ra + [last]| - 1] == ra;
      }
    }
  }

  /** Restricting by two sets that agree on the keys of `order` gives the same order. */
  lemma {:induction false} RestrictSame<K(!new)>(order: seq<K>, a: set<K>, b: set<K>)
    requires forall x :: x in order ==> (x in a <==> x in b)
    ensures Restrict(order, a) == Restrict(order, b)
    decreases |order|
  {
    if order != [] {
      var init := order[..|order| - 1];
      assert forall x :: x in init ==> x in order;
      RestrictSame(init, a, b);
    }
  }

  /** Restricting to every key leaves the order as it is. */
  lemma {:induction false} RestrictAll<K(!new)>(order: seq<K>, keep: set<K>)
    requires forall x :: x in order ==> x in keep
    ensures Restrict(order, keep) == order
    decreases |order|
  {
    if order != [] {
      var init := order[..|order| - 1];
      var last := order[|order| - 1];
      forall x | x in init
        ensures x in keep
      {
        assert x in order;
      }
      RestrictAll(init, keep);
      assert last in order;
      assert Restrict(order, keep) == init + [last];
      assert init + [last] == order;
    }
  }

  /** The registry restricted to the keys in `keep`. */
  function RestrictMap<K(!new), V>(m: map<K, V>, keep: set<K>): (r: map<K, V>)
    ensures forall k :: k in r <==> k in m && k in keep
    ensures forall k :: k in r ==> r[k] == m[k]
  {
    map k | k in m && k in keep :: m[k]
  }

  /** Deleting a key from a restricted registry is restricting by one key fewer. */
  lemma RestrictMapMinus<K(!new), V>(m: map<K, V>, keep: set<K>, k: K)
    ensures RestrictMap(m, keep) - {k} == RestrictMap(m, keep - {k})
  {
  }

  /** Restricting twice is restricting to the intersection. */
  lemma RestrictMapTwice<K(!new), V>(m: map<K, V>, a: set<K>, b: set<K>)
    ensures RestrictMap(RestrictMap(m, a), b) == RestrictMap(m, a * b)
  {
  }

  /** A registry and its order restricted to the same keys still mirror each other. */
  lemma RestrictMirrors<K(!new), V>(order: seq<K>, m: map<K, V>, keep: set<K>)
    requires Mirrors(order, m)
    ensures Mirrors(Restrict(order, keep), RestrictMap(m, keep))
  {
  }

  /** A key missing from the restricted registry is not among the kept keys. */
  lemma DeleteAbsent<K(!new), V>(m0: map<K, V>, keep: set<K>, k: K)
    requires keep <= m0.Keys && k !in RestrictMap(m0, keep)
    ensures keep - {k} == keep
  {
    assert k !in keep;
  }

  /**
   * `del d[k]` for each key of `ks` still in `d`, on a registry `m0` and its key order
   * `o0`: what is left is both restricted to the keys not listed.
   */
  method DeleteAll<K(==,!new), V>(m0: map<K, V>, o0: seq<K>, ks: seq<K>) returns (m: map<K, V>, o: seq<K>)
    requires Mirrors(o0, m0)
    ensures m == RestrictMap(m0, m0.Keys - Elems(ks))
    ensures o == Restrict(o0, m0.Keys - Elems(ks))
    ensures Mirrors(o, m)
  {
    m, o := m0, o0;
    ghost var keep := m0.Keys;
    RestrictAll(o0, keep);
    for i := 0 to |ks|
      invariant keep == m0.Keys - Elems(ks[..i])
      invariant m == RestrictMap(m0, keep) && o == Restrict(o0, keep)
    {
      var k := ks[i];
      ElemsSnoc(ks, i);
      if k in m {
        RestrictMapMinus(m0, keep, k);
        RestrictMinus(o0, keep, k);
        o := Remove(o, k);
        m := m - {k};
      } else {
        DeleteAbsent(m0, keep, k);
      }
      keep := keep - {k};
    }
    assert ks[..|ks|] == ks;
    RestrictMirrors(o0, m0, keep);
  }
}
