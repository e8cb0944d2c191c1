/**
 * Python's `sorted(xs, key=...)` and `list.sort(key=...)`: a stable sort by a total
 * preorder. `le(a, b)` says that `a` may come before `b`; elements that are equivalent
 * under `le` keep their original relative order.
 */
module Sorting {

  /** `le` is total and transitive, as an order on sort keys is. */
  ghost predicate TotalPreorder<T(!new)>(le: (T, T) -> bool) {
    && (forall a, b :: le(a, b) || le(b, a))
    && (forall a, b, c :: le(a, b) && le(b, c) ==> le(a, c))
  }

  predicate Sorted<T>(s: seq<T>, le: (T, T) -> bool) {
    forall i, j :: 0 <= i < j < |s| ==> le(s[i], s[j])
  }

  /** The elements of `s` that `le` cannot tell apart from `v`, in their order in `s`. */
  function Equivalents<T>(s: seq<T>, v: T, le: (T, T) -> bool): (r: seq<T>)
    ensures |r| <= |s|
  {
    if s == [] then []
    else Equivalents(s[..|s| - 1], v, le) + (if le(s[|s| - 1], v) && le(v, s[|s| - 1]) then [s[|s| - 1]] else [])
  }

  /** Insert `x` after the leading elements that may precede it. */
  function Insert<T>(s: seq<T>, x: T, le: (T, T) -> bool): (r: seq<T>)
    ensures |r| == |s| + 1
  {
    if s == [] then [x]
    else if le(s[0], x) then [s[0]] + Insert(s[1..], x, le)
    else [x] + s
  }

  /** Insertion sort, taking the elements in their original order. */
  function SortBy<T>(s: seq<T>, le: (T, T) -> bool): (r: seq<T>)
    ensures |r| == |s|
  {
    if s == [] then [] else Insert(SortBy(s[..|s| - 1], le), s[|s| - 1], le)
  }

  /** Where `Insert` puts `x`: after the leading elements that may precede it. */
  function Position<T>(s: seq<T>, x: T, le: (T, T) -> bool): (p: nat)
    ensures p <= |s|
  {
    if s == [] || !le(s[0], x) then 0 else 1 + Position(s[1..], x, le)
  }

  /** Inserting splits `s` at `Position` and keeps both halves in their order. */
  lemma {:induction false} InsertSplits<T>(s: seq<T>, x: T, le: (T, T) -> bool)
    ensures Insert(s, x, le) == s[..Position(s, x, le)] + [x] + s[Position(s, x, le)..]
    decreases |s|
  {
    if s != [] && le(s[0], x) {
      var p := Position(s[1..], x, le);
      InsertSplits(s[1..], x, le);
      assert s[..p + 1] == [s[0]] + s[1..][..p];
      assert s[p + 1..] == s[1..][p..];
    }
  }

  /** Every element before the insertion point may precede `x`; the one at it may not. */
  lemma {:induction false} PositionBounds<T>(s: seq<T>, x: T, le: (T, T) -> bool)
    ensures forall i :: 0 <= i < Position(s, x, le) ==> le(s[i], x)
    ensures Position(s, x, le) < |s| ==> !le(s[Position(s, x, le)], x)
    decreases |s|
  {
    if s != [] && le(s[0], x) {
      PositionBounds(s[1..], x, le);
      forall i | 0 <= i < Position(s, x, le) ensures le(s[i], x) {
        if i > 0 { assert s[i] == s[1..][i - 1]; }
      }
    }
  }

  lemma InsertMultiset<T>(s: seq<T>, x: T, le: (T, T) -> bool)
    ensures multiset(Insert(s, x, le)) == multiset(s) + multiset{x}
  {
    var p := Position(s, x, le);
    InsertSplits(s, x, le);
    assert s == s[..p] + s[p..];
    assert multiset(s[..p] + [x] + s[p..]) == multiset(s[..p]) + multiset{x} + multiset(s[p..]);
  }

  /** An element of a sequence has a place in any rearrangement of it. */
  lemma IndexInPermutation<T>(s: seq<T>, t: seq<T>, k: int) returns (m: nat)
    requires multiset(s) == multiset(t) && 0 <= k < |s|
    ensures m < |t| && t[m] == s[k]
  {
    assert s[k] in multiset(s);
    m :| 0 <= m < |t| && t[m] == s[k];
  }

  /** Sorting rearranges the elements and nothing else. */
  lemma {:induction false} SortByPermutation<T>(s: seq<T>, le: (T, T) -> bool)
    ensures multiset(SortBy(s, le)) == multiset(s)
    decreases |s|
  {
    if s != [] {
      var init, last := s[..|s| - 1], s[|s| - 1];
      SortByPermutation(init, le);
      InsertMultiset(SortBy(init, le), last, le);
      assert s == init + [last];
    }
  }

  lemma InsertSorted<T(!new)>(s: seq<T>, x: T, le: (T, T) -> bool)
    requires TotalPreorder(le) && Sorted(s, le)
    ensures Sorted(Insert(s, x, le), le)
  {
    var p := Position(s, x, le);
    InsertSplits(s, x, le);
    PositionBounds(s, x, le);
    var r := Insert(s, x, le);
    forall i, j | 0 <= i < j < |r| ensures le(r[i], r[j]) {
      if j < p || i > p {
        // both from s, in their order
      } else if i == p {
        // x before an element of s at or after p: that element does not precede x
        assert r[j] == s[j - 1];
        assert le(s[p], s[j - 1]) || p == j - 1;
        assert le(x, s[p]);
        if p < j - 1 { assert le(x, s[j - 1]); }
      } else if j == p {
        assert r[i] == s[i];
      } else {
        assert r[i] == s[i] && r[j] == s[j - 1];
      }
    }
  }

  /** Under a total preorder the result is sorted. */
  lemma {:induction false} SortBySorted<T(!new)>(s: seq<T>, le: (T, T) -> bool)
    requires TotalPreorder(le)
    ensures Sorted(SortBy(s, le), le)
    decreases |s|
  {
    if s != [] {
      SortBySorted(s[..|s| - 1], le);
      InsertSorted(SortBy(s[..|s| - 1], le), s[|s| - 1], le);
    }
  }

  lemma {:induction false} EquivalentsAppend<T>(a: seq<T>, b: seq<T>, v: T, le: (T, T) -> bool)
    ensures Equivalents(a + b, v, le) == Equivalents(a, v, le) + Equivalents(b, v, le)
    decreases |b|
  {
    if b == [] {
      assert a + b == a;
    } else {
      var init, last := b[..|b| - 1], b[|b| - 1];
      EquivalentsAppend(a, init, v, le);
      assert (a + b)[..|a + b| - 1] == a + init;
    }
  }

  /** With nothing in `s` equivalent to `v`, no element is kept. */
  lemma {:induction false} NoEquivalents<T(!new)>(s: seq<T>, v: T, le: (T, T) -> bool)
    requires forall i :: 0 <= i < |s| ==> !(le(s[i], v) && le(v, s[i]))
    ensures Equivalents(s, v, le) == []
  {
    if s != [] {
      NoEquivalents(s[..|s| - 1], v, le);
    }
  }

  lemma EquivalentsSingle<T>(x: T, v: T, le: (T, T) -> bool)
    ensures Equivalents([x], v, le) == if le(x, v) && le(v, x) then [x] else []
  {
    assert [x][..0] == [];
  }

  /** In a sorted sequence, nothing after the insertion point of `x` is equivalent to `x`. */
  lemma TailNotEquivalent<T(!new)>(s: seq<T>, x: T, v: T, le: (T, T) -> bool)
    requires TotalPreorder(le) && Sorted(s, le)
    requires le(x, v) && le(v, x)
    ensures Equivalents(s[Position(s, x, le)..], v, le) == []
  {
    var p := Position(s, x, le);
    PositionBounds(s, x, le);
    forall i | 0 <= i < |s[p..]| ensures !(le(s[p..][i], v) && le(v, s[p..][i])) {
      assert s[p..][i] == s[p + i];
      if i > 0 { assert le(s[p], s[p + i]); }
    }
    NoEquivalents(s[p..], v, le);
  }

  lemma {:induction false} EquivalentsThree<T>(a: seq<T>, b: seq<T>, c: seq<T>, v: T, le: (T, T) -> bool)
    ensures Equivalents(a + b + c, v, le) == Equivalents(a, v, le) + Equivalents(b, v, le) + Equivalents(c, v, le)
  {
    EquivalentsAppend(a + b, c, v, le);
    EquivalentsAppend(a, b, v, le);
  }

  /** Putting `x` between `front` and `back` places it after `back`'s equivalents when it has none. */
  lemma {:induction false} StableSplice<T>(front: seq<T>, back: seq<T>, x: T, v: T, le: (T, T) -> bool)
    requires le(x, v) && le(v, x) ==> Equivalents(back, v, le) == []
    ensures Equivalents(front + [x] + back, v, le) == Equivalents(front + back, v, le) + Equivalents([x], v, le)
  {
    EquivalentsThree(front, [x], back, v, le);
    EquivalentsAppend(front, back, v, le);
    EquivalentsSingle(x, v, le);
    SwapEmpty(Equivalents(front, v, le), Equivalents([x], v, le), Equivalents(back, v, le));
  }

  lemma SwapEmpty<T>(a: seq<T>, b: seq<T>, c: seq<T>)
    requires b == [] || c == []
    ensures a + b + c == a + c + b
  {
    if b == [] {
      assert a + b + c == a + c;
    } else {
      assert a + b + c == a + b;
    }
  }

  lemma {:induction false} InsertStable<T>(s: seq<T>, x: T, v: T, le: (T, T) -> bool)
    requires le(x, v) && le(v, x) ==> Equivalents(s[Position(s, x, le)..], v, le) == []
    ensures Equivalents(Insert(s, x, le), v, le) == Equivalents(s, v, le) + Equivalents([x], v, le)
  {
    var p := Position(s, x, le);
    InsertSplits(s, x, le);
    assert s == s[..p] + s[p..];
    StableSplice(s[..p], s[p..], x, v, le);
  }

  /** Stability: for every key, the elements with that key appear in their original order. */
  lemma {:induction false} SortByStable<T(!new)>(s: seq<T>, v: T, le: (T, T) -> bool)
    requires TotalPreorder(le)
    ensures Equivalents(SortBy(s, le), v, le) == Equivalents(s, v, le)
    decreases |s|
  {
    if s != [] {
      var init, last := s[..|s| - 1], s[|s| - 1];
      SortByStable(init, v, le);
      SortBySorted(init, le);
      if le(last, v) && le(v, last) {
        TailNotEquivalent(SortBy(init, le), last, v, le);
      }
      InsertStable(SortBy(init, le), last, v, le);
      assert [last][..0] == [];
    }
  }
}
