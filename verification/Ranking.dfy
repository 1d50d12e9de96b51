/** Stable sorting, and what two stacked stable sorts amount to. */
module Ranking {
  import opened Basics

  /** A total preorder: the comparators given to the standard library's stable sort. */
  ghost predicate Preorder<T(!new)>(le: (T, T) -> bool) {
    (forall a, b :: le(a, b) || le(b, a)) && (forall a, b, c :: le(a, b) && le(b, c) ==> le(a, c))
  }

  /** Insertion ahead of the first element that is not smaller. */
  function Insert<T>(x: T, s: seq<T>, le: (T, T) -> bool): seq<T> {
    if s == [] || le(x, s[0]) then [x] + s else [s[0]] + Insert(x, s[1..], le)
  }

  /** The stable sort of the standard library: equal elements keep their order. */
  function StableSort<T>(s: seq<T>, le: (T, T) -> bool): seq<T> {
    if s == [] then [] else Insert(s[0], StableSort(s[1..], le), le)
  }

  ghost predicate Sorted<T>(s: seq<T>, le: (T, T) -> bool) {
    forall i, j :: 0 <= i < j < |s| ==> le(s[i], s[j])
  }

  /** `first` decides; ties are left to `then`. */
  ghost function Lex<T(!new)>(first: (T, T) -> bool, second: (T, T) -> bool): (T, T) -> bool {
    (a, b) => first(a, b) && (first(b, a) ==> second(a, b))
  }

  lemma LexIsPreorder<T(!new)>(first: (T, T) -> bool, second: (T, T) -> bool)
    requires Preorder(first) && Preorder(second)
    ensures Preorder(Lex(first, second))
  {
    var le := Lex(first, second);
    forall a, b, c | le(a, b) && le(b, c)
      ensures le(a, c)
    {
      assert first(a, b) && first(b, c);
      if first(c, a) {
        assert first(b, a) && first(c, b);
      }
    }
  }

  lemma {:induction false} InsertKeeps<T(!new)>(x: T, s: seq<T>, le: (T, T) -> bool)
    requires Preorder(le) && Sorted(s, le)
    ensures Sorted(Insert(x, s, le), le) && multiset(Insert(x, s, le)) == multiset(s) + multiset{x}
    ensures |Insert(x, s, le)| == |s| + 1
  {
    if s == [] {
    } else if le(x, s[0]) {
      forall j | 0 <= j < |s|
        ensures le(x, s[j])
      {
        assert j > 0 ==> le(s[0], s[j]);
      }
    } else {
      InsertKeeps(x, s[1..], le);
      var t := Insert(x, s[1..], le);
      assert s == [s[0]] + s[1..];
      forall j | 0 <= j < |t|
        ensures le(s[0], t[j])
      {
        assert t[j] in multiset(t);
        assert t[j] == x || t[j] in s[1..];
      }
    }
  }

  /** The result is sorted and is a permutation of the input. */
  lemma {:induction false} SortSorts<T(!new)>(s: seq<T>, le: (T, T) -> bool)
    requires Preorder(le)
    ensures Sorted(StableSort(s, le), le) && multiset(StableSort(s, le)) == multiset(s) && |StableSort(s, le)| == |s|
  {
    if s != [] {
      SortSorts(s[1..], le);
      InsertKeeps(s[0], StableSort(s[1..], le), le);
      assert s == [s[0]] + s[1..];
    }
  }

  /** The head of the result is the first least element of the input. */
  lemma {:induction false} HeadIsFirstLeast<T(!new)>(s: seq<T>, le: (T, T) -> bool) returns (k: nat)
    requires Preorder(le) && s != []
    ensures k < |s| && |StableSort(s, le)| > 0 && StableSort(s, le)[0] == s[k]
    ensures forall j :: 0 <= j < |s| ==> le(s[k], s[j])
    ensures forall j :: 0 <= j < k ==> !le(s[j], s[k])
  {
    k := 0;
    if |s| > 1 {
      var j := HeadIsFirstLeast(s[1..], le);
      if !le(s[0], s[j + 1]) {
        k := j + 1;
      } else {
        forall i | 0 <= i < |s|
          ensures le(s[0], s[i])
        {
          assert i > 0 ==> s[i] == s[1..][i - 1] && le(s[1..][j], s[1..][i - 1]);
        }
      }
    }
  }

  /** Inserting two elements, the smaller of which is not larger than anything present, commutes. */
  lemma {:induction false} InsertsCommute<T(!new)>(x: T, y: T, w: seq<T>, le2: (T, T) -> bool, le1: (T, T) -> bool)
    requires Preorder(le1) && Preorder(le2)
    requires le1(y, x) && !le1(x, y) && forall z :: z in w ==> le1(y, z)
    ensures Insert(y, Insert(x, w, Lex(le2, le1)), le2) == Insert(x, Insert(y, w, le2), Lex(le2, le1))
  {
    if w != [] {
      InsertsCommute(x, y, w[1..], le2, le1);
      assert w[0] in w;
    }
  }

  lemma {:induction false} InsertBelowAll<T(!new)>(x: T, w: seq<T>, le2: (T, T) -> bool, le1: (T, T) -> bool)
    requires forall z :: z in w ==> le1(x, z)
    ensures Insert(x, w, Lex(le2, le1)) == Insert(x, w, le2)
  {
    if w != [] {
      InsertBelowAll(x, w[1..], le2, le1);
      assert w[0] in w;
    }
  }

  lemma {:induction false} SortAfterInsert<T(!new)>(x: T, u: seq<T>, le2: (T, T) -> bool, le1: (T, T) -> bool)
    requires Preorder(le1) && Preorder(le2) && Sorted(u, le1)
    ensures StableSort(Insert(x, u, le1), le2) == Insert(x, StableSort(u, le2), Lex(le2, le1))
  {
    SortSorts(u, le2);
    if u == [] {
    } else if le1(x, u[0]) {
      var w := StableSort(u, le2);
      forall z | z in w
        ensures le1(x, z)
      {
        assert z in multiset(w);
        assert z in u;
        var i :| 0 <= i < |u| && u[i] == z;
        assert i > 0 ==> le1(u[0], u[i]);
      }
      assert ([x] + u)[1..] == u;
      InsertBelowAll(x, w, le2, le1);
    } else {
      var y, v := u[0], u[1..];
      var w := StableSort(v, le2);
      SortSorts(v, le2);
      forall z | z in w
        ensures le1(y, z)
      {
        assert z in multiset(w);
        assert z in v;
        var i :| 0 <= i < |v| && v[i] == z;
        assert u[i + 1] == z;
      }
      assert ([y] + Insert(x, v, le1))[1..] == Insert(x, v, le1);
      SortAfterInsert(x, v, le2, le1);
      InsertsCommute(x, y, w, le2, le1);
    }
  }

  /** Two stacked stable sorts yield one lexicographic order: the second key first, then the first. */
  lemma {:induction false} StackedSorts<T(!new)>(s: seq<T>, le1: (T, T) -> bool, le2: (T, T) -> bool)
    requires Preorder(le1) && Preorder(le2)
    ensures StableSort(StableSort(s, le1), le2) == StableSort(s, Lex(le2, le1))
  {
    if s != [] {
      SortSorts(s[1..], le1);
      SortAfterInsert(s[0], StableSort(s[1..], le1), le2, le1);
      StackedSorts(s[1..], le1, le2);
    }
  }
}
