/** A stable sort by a caller-supplied comparison, standing for JavaScript's
    `Array.prototype.sort` (stable since ES2019) and for the database's
    `orderBy`. */
module Sorting {

  /** `le` is a total preorder: any two elements compare, and comparisons chain. */
  ghost predicate TotalPreorder<T(!new)>(le: (T, T) -> bool)
  {
    && (forall x, y :: le(x, y) || le(y, x))
    && (forall x, y, z :: le(x, y) && le(y, z) ==> le(x, z))
  }

  predicate SortedBy<T>(s: seq<T>, le: (T, T) -> bool)
  {
    forall i, j :: 0 <= i < j < |s| ==> le(s[i], s[j])
  }

  /** Puts `x` before the first element it does not follow. */
  function Insert<T>(x: T, s: seq<T>, le: (T, T) -> bool): seq<T>
  {
    if s == [] || le(x, s[0]) then [x] + s else [s[0]] + Insert(x, s[1..], le)
  }

  /** Insertion sort: elements that compare equal keep their input order. */
  function SortBy<T>(s: seq<T>, le: (T, T) -> bool): seq<T>
  {
    if s == [] then [] else Insert(s[0], SortBy(s[1..], le), le)
  }

  /** The elements of `s` that compare equal to `x`, in their order in `s`. */
  function Ties<T>(s: seq<T>, x: T, le: (T, T) -> bool): seq<T>
  {
    if s == [] then []
    else (if le(x, s[0]) && le(s[0], x) then [s[0]] else []) + Ties(s[1..], x, le)
  }

  lemma {:induction false} InsertPermutation<T>(x: T, s: seq<T>, le: (T, T) -> bool)
    ensures multiset(Insert(x, s, le)) == multiset(s) + multiset{x}
  {
    if s != [] && !le(x, s[0]) {
      InsertPermutation(x, s[1..], le);
      assert s == [s[0]] + s[1..];
    }
  }

  /** Sorting rearranges the input: same elements, same multiplicities. */
  lemma {:induction false} SortByPermutation<T>(s: seq<T>, le: (T, T) -> bool)
    ensures multiset(SortBy(s, le)) == multiset(s)
    ensures |SortBy(s, le)| == |s|
  {
    if s != [] {
      SortByPermutation(s[1..], le);
      InsertPermutation(s[0], SortBy(s[1..], le), le);
      assert s == [s[0]] + s[1..];
    }
    assert |multiset(SortBy(s, le))| == |SortBy(s, le)|;
  }

  lemma {:induction false} InsertSorted<T(!new)>(x: T, s: seq<T>, le: (T, T) -> bool)
    requires TotalPreorder(le) && SortedBy(s, le)
    ensures SortedBy(Insert(x, s, le), le)
  {
    if s != [] && !le(x, s[0]) {
      InsertSorted(x, s[1..], le);
      InsertPermutation(x, s[1..], le);
      var r := Insert(x, s[1..], le);
      forall j | 0 <= j < |r| ensures le(s[0], r[j]) {
        assert r[j] in multiset(r);
        if r[j] != x {
          assert r[j] in multiset(s[1..]);
          var k :| 0 <= k < |s[1..]| && s[1..][k] == r[j];
          assert s[k + 1] == r[j];
        }
      }
    }
  }

  /** The sorted output is in order. */
  lemma {:induction false} SortBySorted<T(!new)>(s: seq<T>, le: (T, T) -> bool)
    requires TotalPreorder(le)
    ensures SortedBy(SortBy(s, le), le)
  {
    if s != [] {
      SortBySorted(s[1..], le);
      InsertSorted(s[0], SortBy(s[1..], le), le);
    }
  }

  lemma TiesCons<T>(h: T, r: seq<T>, y: T, le: (T, T) -> bool)
    ensures Ties([h] + r, y, le) == (if le(y, h) && le(h, y) then [h] else []) + Ties(r, y, le)
  {
    assert ([h] + r)[1..] == r;
  }

  /** Inserting `x` puts it ahead of every tie with `y` already in `s`; the
      only chaining needed is through `y` to the elements of `s`. */
  lemma {:induction false} InsertTies<T>(x: T, s: seq<T>, y: T, le: (T, T) -> bool)
    requires forall i :: 0 <= i < |s| ==> (le(x, y) && le(y, s[i]) ==> le(x, s[i]))
    ensures Ties(Insert(x, s, le), y, le)
         == (if le(y, x) && le(x, y) then [x] else []) + Ties(s, y, le)
  {
    if s == [] || le(x, s[0]) {
      TiesCons(x, s, y, le);
    } else {
      var r := Insert(x, s[1..], le);
      InsertTies(x, s[1..], y, le);
      TiesCons(s[0], r, y, le);
      TiesCons(s[0], s[1..], y, le);
      assert [s[0]] + s[1..] == s;
      // x goes after s[0], so they cannot both tie with y
      assert !(le(x, y) && le(y, s[0]));
    }
  }

  /** Stability: among elements that compare equal, the input order survives. */
  lemma {:induction false} SortByStable<T(!new)>(s: seq<T>, y: T, le: (T, T) -> bool)
    requires TotalPreorder(le)
    ensures Ties(SortBy(s, le), y, le) == Ties(s, y, le)
  {
    if s != [] {
      SortByStable(s[1..], y, le);
      var t := SortBy(s[1..], le);
      forall i | 0 <= i < |t| ensures le(s[0], y) && le(y, t[i]) ==> le(s[0], t[i]) {
      }
      InsertTies(s[0], t, y, le);
    }
  }
}
