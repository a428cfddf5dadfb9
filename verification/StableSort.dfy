/** Descending stable sort, and the two facts a paginated merge needs from it. */
module StableSort {
  import opened Lists

  ghost predicate Descending<T>(s: seq<T>, key: T -> int) {
    forall i, j :: 0 <= i < j < |s| ==> key(s[i]) >= key(s[j])
  }

  /** Puts x behind every row whose key is at least its own. */
  function Insert<T>(s: seq<T>, x: T, key: T -> int): (r: seq<T>)
    ensures |r| == |s| + 1
  {
    if s == [] || key(s[|s| - 1]) >= key(x) then s + [x]
    else Insert(s[..|s| - 1], x, key) + [s[|s| - 1]]
  }

  function Sort<T>(s: seq<T>, key: T -> int): (r: seq<T>)
    ensures |r| == |s|
  {
    if s == [] then [] else Insert(Sort(s[..|s| - 1], key), s[|s| - 1], key)
  }

  lemma {:induction false} InsertMembers<T>(s: seq<T>, x: T, key: T -> int)
    ensures multiset(Insert(s, x, key)) == multiset(s) + multiset{x}
  {
    if s != [] {
      assert s == s[..|s| - 1] + [s[|s| - 1]];
      InsertMembers(s[..|s| - 1], x, key);
    }
  }

  lemma InsertBehind<T>(s: seq<T>, last: T, x: T, key: T -> int)
    requires key(last) < key(x)
    ensures Insert(s + [last], x, key) == Insert(s, x, key) + [last]
  {
    assert (s + [last])[..|s|] == s;
  }

  lemma DescendingAppend<T>(s: seq<T>, x: T, key: T -> int)
    requires Descending(s, key) && forall y :: y in s ==> key(y) >= key(x)
    ensures Descending(s + [x], key)
  {
  }

  lemma {:induction false} InsertDescending<T>(s: seq<T>, x: T, key: T -> int)
    requires Descending(s, key)
    ensures Descending(Insert(s, x, key), key)
  {
    if s == [] || key(s[|s| - 1]) >= key(x) {
      DescendingAppend(s, x, key);
    } else {
      var init, last := s[..|s| - 1], s[|s| - 1];
      InsertDescending(init, x, key);
      var r := Insert(init, x, key);
      forall y | y in r ensures key(y) >= key(last) {
        InsertMembers(init, x, key);
        assert y in multiset(r);
        if y != x { assert y in multiset(init); }
      }
      DescendingAppend(r, last, key);
    }
  }

  /** Sorting permutes the rows into descending key order. */
  lemma {:induction false} SortPermutes<T>(s: seq<T>, key: T -> int)
    ensures multiset(Sort(s, key)) == multiset(s) && Descending(Sort(s, key), key)
  {
    if s != [] {
      var init := s[..|s| - 1];
      assert s == init + [s[|s| - 1]];
      SortPermutes(init, key);
      InsertMembers(Sort(init, key), s[|s| - 1], key);
      InsertDescending(Sort(init, key), s[|s| - 1], key);
    }
  }

  lemma {:induction false} SortOfDescending<T>(s: seq<T>, key: T -> int)
    requires Descending(s, key)
    ensures Sort(s, key) == s
  {
    if s != [] {
      SortOfDescending(s[..|s| - 1], key);
    }
  }

  lemma SortTwo<T>(a: T, b: T, key: T -> int)
    requires key(a) < key(b)
    ensures Sort([a] + [b], key) == [b, a]
  {
    assert ([a] + [b])[..1] == [a] && [a][..0] == [];
    assert Sort([a], key) == Insert([], a, key) == [a];
    assert Insert([a], b, key) == Insert([], b, key) + [a] == [b] + [a];
  }

  lemma InsertLast<T(!new)>(s: seq<T>, x: T, key: T -> int, p: T -> bool)
    requires forall y :: y in s ==> key(y) >= key(x)
    ensures Insert(Filter(s, p), x, key) == Filter(s, p) + [x]
  {
    FilterMembers(s, p);
    var kept := Filter(s, p);
    assert kept == [] || kept[|kept| - 1] in kept;
  }

  lemma {:induction false} InsertFiltered<T(!new)>(s: seq<T>, x: T, key: T -> int, p: T -> bool)
    requires Descending(s, key)
    ensures Filter(Insert(s, x, key), p) == if p(x) then Insert(Filter(s, p), x, key) else Filter(s, p)
  {
    if s == [] || key(s[|s| - 1]) >= key(x) {
      FilterAppend(s, x, p);
      InsertLast(s, x, key, p);
    } else {
      var init, last := s[..|s| - 1], s[|s| - 1];
      InsertFiltered(init, x, key, p);
      FilterAppend(Insert(init, x, key), last, p);
      if p(last) && p(x) { InsertBehind(Filter(init, p), last, x, key); }
    }
  }

  /**
   * Stability: dropping rows before or after the sort is the same thing. With p := "key is k"
   * it says that rows of equal key keep their relative order.
   */
  lemma {:induction false} SortFiltered<T(!new)>(s: seq<T>, key: T -> int, p: T -> bool)
    ensures Filter(Sort(s, key), p) == Sort(Filter(s, p), key)
  {
    if s != [] {
      var init, last := s[..|s| - 1], s[|s| - 1];
      SortFiltered(init, key, p);
      SortPermutes(init, key);
      InsertFiltered(Sort(init, key), last, key, p);
      if p(last) {
        assert Filter(s, p)[..|Filter(s, p)| - 1] == Filter(init, p);
      }
    }
  }

  lemma {:induction false} DistinctByCount<T(!new)>(s: seq<T>)
    requires forall x :: x in s ==> multiset(s)[x] == 1
    ensures Distinct(s)
  {
    if s != [] {
      var init, last := s[..|s| - 1], s[|s| - 1];
      assert s == init + [last];
      forall x | x in init ensures multiset(init)[x] == 1 {
        assert x in s && multiset(s)[x] == multiset(init)[x] + multiset{last}[x];
        assert x in multiset(init);
      }
      DistinctByCount(init);
      forall i | 0 <= i < |init| ensures s[i] != last {
        assert init[i] in multiset(init);
        assert multiset(s)[last] == multiset(init)[last] + 1;
      }
    }
  }

  lemma {:induction false} CountOfDistinct<T(!new)>(s: seq<T>)
    requires Distinct(s)
    ensures forall x :: x in s ==> multiset(s)[x] == 1
  {
    if s != [] {
      var init, last := s[..|s| - 1], s[|s| - 1];
      assert s == init + [last];
      CountOfDistinct(init);
      assert last !in init;
      assert last !in multiset(init);
    }
  }

  lemma SortDistinct<T(!new)>(s: seq<T>, key: T -> int)
    requires Distinct(s)
    ensures Distinct(Sort(s, key))
  {
    SortPermutes(s, key);
    CountOfDistinct(s);
    forall x | x in Sort(s, key) ensures multiset(Sort(s, key))[x] == 1 {
      assert x in multiset(s);
    }
    DistinctByCount(Sort(s, key));
  }
}
