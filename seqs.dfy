/** Sequence helpers shared by the report folds and the pages: the
    first-appearance order of a JavaScript `Map`'s keys, duplicate-freedom
    and `Array.prototype.filter`. */
module Seqs {

  /** How many elements of `s` satisfy `p`. */
  function CountIf<T>(s: seq<T>, p: T -> bool): nat
  {
    if s == [] then 0 else CountIf(s[..|s| - 1], p) + (if p(s[|s| - 1]) then 1 else 0)
  }

  /** The positions of `s` whose element satisfies `p`. */
  function IndicesWhere<T>(s: seq<T>, p: T -> bool): set<int>
  {
    set i | 0 <= i < |s| && p(s[i])
  }

  /** `CountIf` counts positions: one for each index whose element passes. */
  lemma {:induction false} CountIfIndices<T>(s: seq<T>, p: T -> bool)
    ensures CountIf(s, p) == |IndicesWhere(s, p)|
  {
    if s != [] {
      var init := s[..|s| - 1];
      var n := |s| - 1;
      CountIfIndices(init, p);
      var last := if p(s[n]) then {n} else {};
      assert IndicesWhere(s, p) == IndicesWhere(init, p) + last;
      assert n !in IndicesWhere(init, p);
      assert IndicesWhere(init, p) * last == {};
    }
  }

  /** The elements of `s` satisfying `p`, in their order: the recursion
      behind `Filter`, kept free of quantified postconditions so that proofs
      about it stay small. */
  function Kept<T>(s: seq<T>, p: T -> bool): seq<T>
  {
    if s == [] then [] else Kept(s[..|s| - 1], p) + (if p(s[|s| - 1]) then [s[|s| - 1]] else [])
  }

  lemma {:induction false} KeptCount<T>(s: seq<T>, p: T -> bool)
    ensures |Kept(s, p)| == CountIf(s, p) <= |s|
  {
    if s != [] {
      KeptCount(s[..|s| - 1], p);
    }
  }

  lemma {:induction false} KeptMembers<T(!new)>(s: seq<T>, p: T -> bool)
    ensures forall x :: x in Kept(s, p) <==> x in s && p(x)
  {
    if s != [] {
      var init := s[..|s| - 1];
      KeptMembers(init, p);
      assert s == init + [s[|s| - 1]];
    }
  }

  lemma {:induction false} KeptAll<T>(s: seq<T>, p: T -> bool)
    requires forall k :: 0 <= k < |s| ==> p(s[k])
    ensures Kept(s, p) == s
  {
    if s != [] {
      var init := s[..|s| - 1];
      assert forall k :: 0 <= k < |init| ==> init[k] == s[k];
      KeptAll(init, p);
      assert s == init + [s[|s| - 1]];
    }
  }

  /** `s.filter(p)`: the elements satisfying `p`, in their order; one per
      element of `s` that satisfies `p` (`FilterMultiset` counts each value,
      `FilterAppend` shows that the order is kept). */
  function Filter<T(!new)>(s: seq<T>, p: T -> bool): (r: seq<T>)
    ensures |r| == CountIf(s, p) && |r| <= |s|
    ensures forall x :: x in r <==> x in s && p(x)
    ensures (forall k :: 0 <= k < |s| ==> p(s[k])) ==> r == s
  {
    KeptCount(s, p);
    KeptMembers(s, p);
    if forall k :: 0 <= k < |s| ==> p(s[k]) then KeptAll(s, p); Kept(s, p) else Kept(s, p)
  }

  lemma FilterIsKept<T(!new)>(s: seq<T>, p: T -> bool)
    ensures Filter(s, p) == Kept(s, p)
  {
  }

  lemma {:induction false} KeptMultiset<T>(s: seq<T>, p: T -> bool)
    ensures forall x :: multiset(Kept(s, p))[x] == if p(x) then multiset(s)[x] else 0
  {
    if s != [] {
      var init := s[..|s| - 1];
      var y := s[|s| - 1];
      KeptMultiset(init, p);
      assert s == init + [y];
      assert multiset(s) == multiset(init) + multiset{y};
    }
  }

  /** Filtering keeps every occurrence of a value satisfying `p` and drops
      every occurrence of the others. */
  lemma FilterMultiset<T(!new)>(s: seq<T>, p: T -> bool)
    ensures forall x :: multiset(Filter(s, p))[x] == if p(x) then multiset(s)[x] else 0
  {
    KeptMultiset(s, p);
  }

  lemma {:induction false} KeptAppend<T>(a: seq<T>, b: seq<T>, p: T -> bool)
    ensures Kept(a + b, p) == Kept(a, p) + Kept(b, p)
  {
    if b == [] {
      assert a + b == a;
    } else {
      var init := b[..|b| - 1];
      var y := b[|b| - 1];
      var tail := if p(y) then [y] else [];
      KeptAppend(a, init, p);
      assert (a + b)[..|a + b| - 1] == a + init;
      assert (a + b)[|a + b| - 1] == y;
      calc {
        Kept(a + b, p);
        Kept(a + init, p) + tail;
        Kept(a, p) + Kept(init, p) + tail;
        Kept(a, p) + Kept(b, p);
      }
    }
  }

  /** Filtering keeps the order of the input: the kept elements of a prefix
      come before those of the rest. */
  lemma FilterAppend<T(!new)>(a: seq<T>, b: seq<T>, p: T -> bool)
    ensures Filter(a + b, p) == Filter(a, p) + Filter(b, p)
  {
    KeptAppend(a, b, p);
  }

  /** No element occurs twice. */
  predicate NoDuplicates<T(==)>(s: seq<T>)
  {
    forall i, j :: 0 <= i < j < |s| ==> s[i] != s[j]
  }

  /** The distinct elements of `s` in order of first appearance: the key
      order of a `Map` into which the elements of `s` are `set` in turn. */
  function Dedup<T(==)>(s: seq<T>): seq<T>
  {
    if s == [] then []
    else
      var d := Dedup(s[..|s| - 1]);
      if s[|s| - 1] in d then d else d + [s[|s| - 1]]
  }

  /** Setting one more key appends it to the key order only if it is new. */
  lemma DedupSnoc<T>(s: seq<T>, x: T)
    ensures Dedup(s + [x]) == if x in Dedup(s) then Dedup(s) else Dedup(s) + [x]
  {
    assert (s + [x])[..|s|] == s;
  }

  /** `Dedup` keeps exactly the elements of `s`, each once. */
  lemma {:induction false} DedupElements<T>(s: seq<T>)
    ensures NoDuplicates(Dedup(s))
    ensures forall x :: x in Dedup(s) <==> x in s
  {
    if s != [] {
      var init := s[..|s| - 1];
      DedupElements(init);
      assert s == init + [s[|s| - 1]];
      forall x
        ensures x in s <==> x in init || x == s[|s| - 1]
      {
      }
    }
  }

  /** `Dedup` lists elements in order of first appearance: whenever `s[i]`
      is a later key, an earlier key occurs in `s` before position `i`. */
  lemma {:induction false} DedupFirstAppearance<T>(s: seq<T>, a: int, b: int, i: int)
    requires 0 <= a < b < |Dedup(s)|
    requires 0 <= i < |s| && s[i] == Dedup(s)[b]
    ensures exists j :: 0 <= j < i && s[j] == Dedup(s)[a]
  {
    var init := s[..|s| - 1];
    var d := Dedup(init);
    DedupElements(init);
    assert forall k :: 0 <= k < |init| ==> s[k] == init[k];
    if b < |d| {
      assert Dedup(s)[a] == d[a] && Dedup(s)[b] == d[b];
      assert s[i] in init;
      var k :| 0 <= k < |init| && init[k] == s[i];
      if i < |init| {
        k := i;
      }
      DedupFirstAppearance(init, a, b, k);
      var j :| 0 <= j < k && init[j] == d[a];
      assert s[j] == Dedup(s)[a];
    } else {
      // Dedup(s)[b] is the last element, added because it is new to `init`
      assert s[|s| - 1] !in init;
      assert i == |s| - 1;
      DedupMember(init, a);
      var j :| 0 <= j < |init| && init[j] == d[a];
      assert s[j] == Dedup(s)[a];
    }
  }

  /** Every key of `Dedup(s)` occurs in `s`. */
  lemma DedupMember<T>(s: seq<T>, a: int)
    requires 0 <= a < |Dedup(s)|
    ensures exists j :: 0 <= j < |s| && s[j] == Dedup(s)[a]
  {
    DedupElements(s);
    assert Dedup(s)[a] in Dedup(s);
  }
}
