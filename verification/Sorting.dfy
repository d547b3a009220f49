/** Stable sorting by a comparator, and the one fact the planner's determinism rests on:
    a sequence has only one sorted rearrangement when the comparator is total on its elements. */
module Sorting {

  /** Places `x` behind every element that does not come after it. */
  function Insert<T>(less: (T, T) -> bool, x: T, s: seq<T>): seq<T> {
    if s == [] then [x]
    else if less(x, s[0]) then [x] + s
    else [s[0]] + Insert(less, x, s[1..])
  }

  function Sort<T>(less: (T, T) -> bool, s: seq<T>): seq<T> {
    if s == [] then [] else Insert(less, s[|s| - 1], Sort(less, s[..|s| - 1]))
  }

  ghost predicate StrictWeakOn<T>(less: (T, T) -> bool, s: seq<T>) {
    && (forall a, b {:trigger less(a, b)} :: a in s && b in s && less(a, b) ==> !less(b, a))
    && (forall a, b, c {:trigger less(a, c), less(a, b)} {:trigger less(a, c), less(b, c)} ::
         a in s && b in s && c in s && less(a, c) ==> less(a, b) || less(b, c))
  }

  ghost predicate TotalOn<T>(less: (T, T) -> bool, s: seq<T>) {
    forall a, b {:trigger less(a, b)} :: a in s && b in s && a != b ==> less(a, b) || less(b, a)
  }

  ghost predicate Ordered<T>(less: (T, T) -> bool, s: seq<T>) {
    forall i, j :: 0 <= i < j < |s| ==> !less(s[j], s[i])
  }

  ghost predicate Distinct<T>(s: seq<T>) {
    forall i, j :: 0 <= i < j < |s| ==> s[i] != s[j]
  }

  lemma {:induction false} InsertKeepsElements<T>(less: (T, T) -> bool, x: T, s: seq<T>)
    ensures multiset(Insert(less, x, s)) == multiset(s) + multiset{x}
    ensures |Insert(less, x, s)| == |s| + 1
  {
    if s != [] {
      assert s == [s[0]] + s[1..];
      if !less(x, s[0]) {
        InsertKeepsElements(less, x, s[1..]);
      }
    }
  }

  lemma {:induction false} SortKeepsElements<T>(less: (T, T) -> bool, s: seq<T>)
    ensures multiset(Sort(less, s)) == multiset(s)
    ensures |Sort(less, s)| == |s|
    ensures forall x :: x in Sort(less, s) <==> x in s
  {
    if s != [] {
      var front := s[..|s| - 1];
      SortKeepsElements(less, front);
      InsertKeepsElements(less, s[|s| - 1], Sort(less, front));
      assert s == front + [s[|s| - 1]];
    }
    SameElements(Sort(less, s), s);
  }

  lemma SameElements<T>(s: seq<T>, t: seq<T>)
    requires multiset(s) == multiset(t)
    ensures forall x :: x in s <==> x in t
    ensures |s| == |t|
  {
    assert forall x :: x in s <==> x in multiset(s);
    assert forall x :: x in t <==> x in multiset(t);
    assert |s| == |multiset(s)| && |t| == |multiset(t)|;
  }

  lemma {:induction false} InsertOrders<T>(less: (T, T) -> bool, x: T, s: seq<T>)
    requires Ordered(less, s) && StrictWeakOn(less, [x] + s)
    ensures Ordered(less, Insert(less, x, s))
  {
    if s != [] {
      var whole := [x] + s;
      assert x in whole && forall y :: y in s ==> y in whole;
      if less(x, s[0]) {
        forall j | 0 <= j < |s| ensures !less(s[j], x) {
          assert s[j] in whole && s[0] in whole;
        }
      } else {
        var tail := s[1..];
        assert forall y :: y in [x] + tail ==> y in whole;
        InsertOrders(less, x, tail);
        InsertKeepsElements(less, x, tail);
        var r := Insert(less, x, tail);
        forall j | 0 <= j < |r| ensures !less(r[j], s[0]) {
          assert r[j] in multiset(r);
          assert r[j] in multiset(tail) || r[j] == x;
          if r[j] in tail {
            var k :| 0 <= k < |tail| && tail[k] == r[j];
            assert s[k + 1] == r[j];
          }
        }
      }
    }
  }

  /** A sort of elements on which the comparator is a strict weak order is ordered. */
  lemma {:induction false} SortOrders<T>(less: (T, T) -> bool, s: seq<T>)
    requires StrictWeakOn(less, s)
    ensures Ordered(less, Sort(less, s))
  {
    if s != [] {
      var front, last := s[..|s| - 1], s[|s| - 1];
      var sorted := Sort(less, front);
      SortOrders(less, front);
      SortKeepsElements(less, front);
      SameElements(sorted, front);
      forall y | y in [last] + sorted ensures y in s {
        assert y in sorted ==> y in multiset(sorted) && y in multiset(front) && y in front;
        assert y in front ==> y in s;
      }
      InsertOrders(less, last, Sort(less, front));
    }
  }

  lemma HeadsAgree<T>(less: (T, T) -> bool, s: seq<T>, t: seq<T>)
    requires s != [] && t != [] && s[0] in t && t[0] in s
    requires Ordered(less, s) && Ordered(less, t) && TotalOn(less, s)
    ensures s[0] == t[0]
  {
    var i :| 0 <= i < |t| && t[i] == s[0];
    var j :| 0 <= j < |s| && s[j] == t[0];
    assert i > 0 ==> !less(t[i], t[0]);
    assert j > 0 ==> !less(s[j], s[0]);
  }

  lemma TailElements<T>(s: seq<T>)
    requires s != []
    ensures multiset(s[1..]) == multiset(s) - multiset{s[0]}
    ensures forall y :: y in s[1..] ==> y in s
  {
    assert s == [s[0]] + s[1..];
  }

  lemma TailIsOrdered<T>(less: (T, T) -> bool, s: seq<T>)
    requires s != [] && Ordered(less, s)
    ensures Ordered(less, s[1..]) && (TotalOn(less, s) ==> TotalOn(less, s[1..]))
  {
    TailElements(s);
  }

  /** Two ordered arrangements of the same elements are the same sequence. */
  lemma {:induction false} OrderedIsUnique<T>(less: (T, T) -> bool, s: seq<T>, t: seq<T>)
    requires multiset(s) == multiset(t)
    requires Ordered(less, s) && Ordered(less, t) && TotalOn(less, s)
    ensures s == t
  {
    hide Ordered, TotalOn;
    assert |s| == |t| by { SameElements(s, t); }
    if s != [] {
      assert s[0] in t && t[0] in s by { SameElements(s, t); }
      HeadsAgree(less, s, t);
      assert multiset(s[1..]) == multiset(t[1..]) by {
        TailElements(s);
        TailElements(t);
      }
      TailIsOrdered(less, s);
      TailIsOrdered(less, t);
      OrderedIsUnique(less, s[1..], t[1..]);
      assert s == [s[0]] + s[1..] && t == [t[0]] + t[1..];
    }
  }

  lemma SortHasTheElements<T>(less: (T, T) -> bool, s: seq<T>, x: T)
    ensures x in Sort(less, s) <==> x in s
  {
    hide Sort;
    SortKeepsElements(less, s);
    assert x in Sort(less, s) <==> x in multiset(Sort(less, s));
    assert x in s <==> x in multiset(s);
  }

  /** Sorting forgets the order it was given. */
  lemma SortForgetsInputOrder<T>(less: (T, T) -> bool, s: seq<T>, t: seq<T>)
    requires multiset(s) == multiset(t)
    requires StrictWeakOn(less, s) && TotalOn(less, s)
    ensures Sort(less, s) == Sort(less, t)
  {
    var s', t' := Sort(less, s), Sort(less, t);
    assert StrictWeakOn(less, t) by { SameElements(s, t); }
    assert Ordered(less, s') && Ordered(less, t') by {
      SortOrders(less, s);
      SortOrders(less, t);
    }
    assert multiset(s') == multiset(t') && TotalOn(less, s') by {
      SortKeepsElements(less, s);
      SortKeepsElements(less, t);
    }
    OrderedIsUnique(less, s', t');
  }

  lemma DistinctIsMultisetFact<T>(s: seq<T>)
    ensures Distinct(s) <==> forall x :: x in multiset(s) ==> multiset(s)[x] == 1
  {
    if Distinct(s) {
      forall x | x in multiset(s) ensures multiset(s)[x] == 1 {
        OnceIfDistinct(s, x);
      }
    } else {
      var i, j :| 0 <= i < j < |s| && s[i] == s[j];
      assert s == s[..j] + [s[j]] + s[j + 1..];
      assert s[i] in s[..j] && s[i] in multiset(s[..j]);
      assert multiset(s)[s[i]] >= 2;
    }
  }

  lemma {:induction false} OnceIfDistinct<T>(s: seq<T>, x: T)
    requires Distinct(s) && x in s
    ensures multiset(s)[x] == 1
  {
    assert s == [s[0]] + s[1..];
    if x == s[0] {
      assert x !in s[1..];
    } else {
      OnceIfDistinct(s[1..], x);
    }
  }

  lemma DistinctSurvivesRearrangement<T>(s: seq<T>, t: seq<T>)
    requires multiset(s) == multiset(t) && Distinct(s)
    ensures Distinct(t)
  {
    DistinctIsMultisetFact(s);
    DistinctIsMultisetFact(t);
  }
}
