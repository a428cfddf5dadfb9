/** Sums, counts and filters over table rows, and how one write changes them. */
module Lists {

  datatype Option<+T> = None | Some(value: T)

  ghost predicate Distinct<T>(s: seq<T>) {
    forall i, j :: 0 <= i < j < |s| ==> s[i] != s[j]
  }

  function Sum<T>(s: seq<T>, f: T -> int): int {
    if s == [] then 0 else Sum(s[..|s| - 1], f) + f(s[|s| - 1])
  }

  function Filter<T(!new)>(s: seq<T>, p: T -> bool): (r: seq<T>)
    ensures |r| <= |s|
  {
    if s == [] then []
    else if p(s[|s| - 1]) then Filter(s[..|s| - 1], p) + [s[|s| - 1]]
    else Filter(s[..|s| - 1], p)
  }

  lemma {:induction false} FilterMembers<T(!new)>(s: seq<T>, p: T -> bool)
    ensures forall x :: x in Filter(s, p) <==> x in s && p(x)
  {
    if s != [] {
      assert s == s[..|s| - 1] + [s[|s| - 1]];
      FilterMembers(s[..|s| - 1], p);
    }
  }

  lemma {:induction false} FilterDistinct<T(!new)>(s: seq<T>, p: T -> bool)
    requires Distinct(s)
    ensures Distinct(Filter(s, p))
  {
    if s != [] {
      FilterMembers(s[..|s| - 1], p);
      FilterDistinct(s[..|s| - 1], p);
    }
  }

  /** The database's `take`: at most the first n rows. */
  function Take<T>(s: seq<T>, n: nat): seq<T> {
    if |s| <= n then s else s[..n]
  }

  function Map<T, U>(s: seq<T>, f: T -> U): (r: seq<U>)
    ensures |r| == |s|
    ensures forall i :: 0 <= i < |s| ==> r[i] == f(s[i])
  {
    seq(|s|, i requires 0 <= i < |s| => f(s[i]))
  }

  lemma SumAppend<T>(s: seq<T>, x: T, f: T -> int)
    ensures Sum(s + [x], f) == Sum(s, f) + f(x)
  {
    assert (s + [x])[..|s|] == s;
  }

  lemma {:induction false} SumConcat<T>(s: seq<T>, t: seq<T>, f: T -> int)
    ensures Sum(s + t, f) == Sum(s, f) + Sum(t, f)
  {
    if t == [] {
      assert s + t == s;
    } else {
      var init, last := t[..|t| - 1], t[|t| - 1];
      assert s + t == (s + init) + [last];
      SumConcat(s, init, f);
      SumAppend(s + init, last, f);
    }
  }

  /** Overwriting one row moves a sum by exactly that row's change. */
  lemma {:induction false} SumUpdate<T>(s: seq<T>, i: nat, x: T, f: T -> int)
    requires i < |s|
    ensures Sum(s[i := x], f) == Sum(s, f) - f(s[i]) + f(x)
  {
    var n := |s| - 1;
    if i < n {
      assert s[i := x][..n] == s[..n][i := x];
      SumUpdate(s[..n], i, x, f);
    } else {
      assert s[i := x][..n] == s[..n];
    }
  }

  lemma {:induction false} SumAgree<T, U>(s: seq<T>, t: seq<U>, f: T -> int, g: U -> int)
    requires |s| == |t| && forall i :: 0 <= i < |s| ==> f(s[i]) == g(t[i])
    ensures Sum(s, f) == Sum(t, g)
  {
    if s != [] {
      var n := |s| - 1;
      forall i | 0 <= i < n ensures f(s[..n][i]) == g(t[..n][i]) { assert s[..n][i] == s[i] && t[..n][i] == t[i]; }
      SumAgree(s[..n], t[..n], f, g);
    }
  }

  /** A sum of non-negative terms is non-negative, and zero exactly when every term is. */
  lemma {:induction false} SumNonNegative<T(!new)>(s: seq<T>, f: T -> int)
    requires forall x :: x in s ==> f(x) >= 0
    ensures Sum(s, f) >= 0
    ensures Sum(s, f) == 0 <==> forall x :: x in s ==> f(x) == 0
  {
    if s != [] {
      var n := |s| - 1;
      assert s == s[..n] + [s[n]];
      SumNonNegative(s[..n], f);
    }
  }

  lemma FilterAppend<T(!new)>(s: seq<T>, x: T, p: T -> bool)
    ensures Filter(s + [x], p) == Filter(s, p) + (if p(x) then [x] else [])
  {
    assert (s + [x])[..|s|] == s;
  }

  lemma {:induction false} FilterConcat<T(!new)>(s: seq<T>, t: seq<T>, p: T -> bool)
    ensures Filter(s + t, p) == Filter(s, p) + Filter(t, p)
  {
    if t == [] {
      assert s + t == s;
    } else {
      var init, last := t[..|t| - 1], t[|t| - 1];
      assert s + t == (s + init) + [last];
      FilterConcat(s, init, p);
      FilterAppend(s + init, last, p);
    }
  }

  lemma {:induction false} FilterAll<T(!new)>(s: seq<T>, p: T -> bool)
    requires forall x :: x in s ==> p(x)
    ensures Filter(s, p) == s
  {
    if s != [] {
      var n := |s| - 1;
      assert s == s[..n] + [s[n]];
      FilterAll(s[..n], p);
    }
  }

  lemma {:induction false} FilterNone<T(!new)>(s: seq<T>, p: T -> bool)
    requires forall x :: x in s ==> !p(x)
    ensures Filter(s, p) == []
  {
    if s != [] {
      var n := |s| - 1;
      assert s == s[..n] + [s[n]];
      FilterNone(s[..n], p);
    }
  }

  // ---- Grouping by key --------------------------------------------------------------------------------------

  /** A row's amount if it carries the key. */
  function WithKey<T, K(==)>(key: T -> K, k: K, f: T -> int): T -> int {
    (x: T) => if key(x) == k then f(x) else 0
  }

  function WithKeyIn<T, K(==)>(key: T -> K, keys: seq<K>, f: T -> int): T -> int {
    (x: T) => if key(x) in keys then f(x) else 0
  }

  function GroupTotal<T, K(==)>(s: seq<T>, key: T -> K, f: T -> int): K -> int {
    (k: K) => Sum(s, WithKey(key, k, f))
  }

  /** One more row adds its amount to the total over the groups exactly if its key is among them. */
  lemma {:induction false} OneMoreRow<T, K>(s: seq<T>, x: T, keys: seq<K>, key: T -> K, f: T -> int)
    requires Distinct(keys)
    ensures Sum(keys, GroupTotal(s + [x], key, f)) == Sum(keys, GroupTotal(s, key, f)) + WithKeyIn(key, keys, f)(x)
  {
    if keys != [] {
      var n := |keys| - 1;
      OneMoreRow(s, x, keys[..n], key, f);
      SumAppend(s, x, WithKey(key, keys[n], f));
      assert keys == keys[..n] + [keys[n]];
      assert keys[n] !in keys[..n];
    }
  }

  /** The totals of distinct groups add up to the total of the rows that fall in one of them. */
  lemma {:induction false} GroupTotalsAddUp<T, K>(s: seq<T>, keys: seq<K>, key: T -> K, f: T -> int)
    requires Distinct(keys)
    ensures Sum(keys, GroupTotal(s, key, f)) == Sum(s, WithKeyIn(key, keys, f))
  {
    if s == [] {
      EmptyTotals(keys, key, f);
    } else {
      var n := |s| - 1;
      GroupTotalsAddUp(s[..n], keys, key, f);
      OneMoreRow(s[..n], s[n], keys, key, f);
      assert s == s[..n] + [s[n]];
    }
  }

  lemma {:induction false} EmptyTotals<T, K>(keys: seq<K>, key: T -> K, f: T -> int)
    ensures Sum(keys, GroupTotal<T, K>([], key, f)) == 0
  {
    if keys != [] { EmptyTotals(keys[..|keys| - 1], key, f); }
  }
}
