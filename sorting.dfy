/**
 * Python's `sorted(xs, key=...)`: a stable sort. `le(a, b)` says that a may stand
 * before b; for `reverse=True` on a numeric key it is `key(a) >= key(b)`.
 */
module Sorting {

  /** Any two elements can be ordered one way or the other. */
  ghost predicate Total<T(!new)>(le: (T, T) -> bool) {
    forall a, b :: le(a, b) || le(b, a)
  }

  ghost predicate Transitive<T(!new)>(le: (T, T) -> bool) {
    forall a, b, c :: le(a, b) && le(b, c) ==> le(a, c)
  }

  /** Each element may stand before the next one. */
  predicate Sorted<T>(s: seq<T>, le: (T, T) -> bool) {
    forall i :: 0 <= i < |s| - 1 ==> le(s[i], s[i + 1])
  }

  /** Puts x in front of the first element it may stand before. */
  function Insert<T(!new)>(x: T, s: seq<T>, le: (T, T) -> bool): (r: seq<T>)
    requires Total(le) && Sorted(s, le)
    ensures Sorted(r, le)
    ensures multiset(r) == multiset(s) + multiset{x}
    ensures |r| == |s| + 1
    ensures r[0] == x || (s != [] && r[0] == s[0])
  {
    if s == [] then [x]
    else if le(x, s[0]) then [x] + s
    else
      var t := Insert(x, s[1..], le);
      assert s == [s[0]] + s[1..];
      [s[0]] + t
  }

  /** Insertion sort: the result is ordered and a permutation of the input. */
  function SortBy<T(!new)>(s: seq<T>, le: (T, T) -> bool): (r: seq<T>)
    requires Total(le)
    ensures Sorted(r, le)
    ensures multiset(r) == multiset(s)
    ensures |r| == |s|
  {
    if s == [] then []
    else
      assert s == [s[0]] + s[1..];
      Insert(s[0], SortBy(s[1..], le), le)
  }

  /** For a transitive order, neighbours in order means every pair in order. */
  lemma {:induction false} SortedAllPairs<T(!new)>(s: seq<T>, le: (T, T) -> bool)
    requires Transitive(le) && Sorted(s, le)
    ensures forall i, j :: 0 <= i < j < |s| ==> le(s[i], s[j])
  {
    if |s| > 1 {
      SortedAllPairs(s[1..], le);
      forall i, j | 0 <= i < j < |s| ensures le(s[i], s[j]) {
        if 0 < i {
          assert s[i] == s[1..][i - 1] && s[j] == s[1..][j - 1];
        } else if 1 < j {
          assert le(s[1], s[j]) by { assert s[1] == s[1..][0] && s[j] == s[1..][j - 1]; }
        }
      }
    }
  }

  /** a and b are tied: each may stand before the other. */
  predicate Tie<T>(le: (T, T) -> bool, a: T, b: T) {
    le(a, b) && le(b, a)
  }

  /** The elements of s tied with x, in their order in s. */
  function Tied<T>(s: seq<T>, x: T, le: (T, T) -> bool): seq<T> {
    if s == [] then []
    else (if Tie(le, x, s[0]) then [s[0]] else []) + Tied(s[1..], x, le)
  }

  /** Tied taken over one element followed by the rest. */
  lemma TiedCons<T>(h: T, t: seq<T>, y: T, le: (T, T) -> bool)
    ensures Tied([h] + t, y, le) == (if Tie(le, y, h) then [h] else []) + Tied(t, y, le)
  {
    assert ([h] + t)[1..] == t;
  }

  /** Two elements tied with the same y may stand before each other. */
  lemma TiesAgree<T(!new)>(a: T, b: T, y: T, le: (T, T) -> bool)
    requires Transitive(le) && Tie(le, y, a) && Tie(le, y, b)
    ensures le(a, b)
  {
    assert le(a, y) && le(y, b);
  }

  /** Dropping the head of a sorted sequence leaves it sorted. */
  lemma SortedTail<T>(s: seq<T>, le: (T, T) -> bool)
    requires s != [] && Sorted(s, le)
    ensures Sorted(s[1..], le)
  {
    forall i | 0 <= i < |s[1..]| - 1 ensures le(s[1..][i], s[1..][i + 1]) {
      assert s[1..][i] == s[i + 1] && s[1..][i + 1] == s[i + 2];
    }
  }

  /** Inserting x puts it in front of every element tied with it. */
  lemma {:induction false} InsertTies<T(!new)>(x: T, s: seq<T>, le: (T, T) -> bool, y: T)
    requires Total(le) && Transitive(le) && Sorted(s, le)
    ensures Tied(Insert(x, s, le), y, le) == (if Tie(le, y, x) then [x] else []) + Tied(s, y, le)
  {
    if s == [] {
      TiedCons(x, [], y, le);
    } else if le(x, s[0]) {
      TiedCons(x, s, y, le);
    } else {
      SortedTail(s, le);
      InsertTies(x, s[1..], le, y);
      if Tie(le, y, x) && Tie(le, y, s[0]) {
        TiesAgree(x, s[0], y, le);
        assert false;
      }
      TiedCons(s[0], Insert(x, s[1..], le), y, le);
      TiedCons(s[0], s[1..], y, le);
      assert s == [s[0]] + s[1..];
    }
  }

  /** Stability: the elements tied with any y keep their relative order. */
  lemma {:induction false} SortByStable<T(!new)>(s: seq<T>, le: (T, T) -> bool, y: T)
    requires Total(le) && Transitive(le)
    ensures Tied(SortBy(s, le), y, le) == Tied(s, y, le)
  {
    if s != [] {
      SortByStable(s[1..], le, y);
      InsertTies(s[0], SortBy(s[1..], le), le, y);
      TiedCons(s[0], s[1..], y, le);
      assert s == [s[0]] + s[1..];
    }
  }
}
