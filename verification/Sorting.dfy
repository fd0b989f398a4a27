/** Go's `sort` package by its contract: some sorted permutation comes back, and nothing is
    promised about the order of elements that compare equal. */
module Sorting {

  /** What `sort.Interface` asks of `Less`: a strict weak order. */
  ghost predicate StrictWeak<T(!new)>(less: (T, T) -> bool) {
    && (forall a :: !less(a, a))
    && (forall a, b, c :: less(a, b) && less(b, c) ==> less(a, c))
    && (forall a, b, c :: less(a, c) ==> less(a, b) || less(b, c))
  }

  /** No two different elements of `s` compare equal. */
  ghost predicate TotalOn<T>(s: seq<T>, less: (T, T) -> bool) {
    forall a, b :: a in s && b in s ==> less(a, b) || a == b || less(b, a)
  }

  ghost predicate Sorted<T>(s: seq<T>, less: (T, T) -> bool) {
    forall i, j :: 0 <= i < j < |s| ==> !less(s[j], s[i])
  }

  ghost predicate Permutation<T>(s: seq<T>, t: seq<T>) {
    multiset(s) == multiset(t)
  }

  lemma PermutationMember<T>(s: seq<T>, t: seq<T>, x: T)
    requires Permutation(s, t)
    ensures x in s <==> x in t
  {
    assert x in s <==> x in multiset(s);
    assert x in t <==> x in multiset(t);
  }

  ghost predicate Distinct<T>(s: seq<T>) {
    forall i, j :: 0 <= i < j < |s| ==> s[i] != s[j]
  }

  lemma {:induction false} DistinctCount<T>(s: seq<T>, x: T)
    requires Distinct(s)
    ensures multiset(s)[x] <= 1
  {
    if s != [] {
      DistinctCount(s[1..], x);
      assert s == [s[0]] + s[1..];
      if s[0] == x {
        assert x !in s[1..];
      }
    }
  }

  lemma RepeatedCount<T>(s: seq<T>, i: nat, j: nat)
    requires i < j < |s| && s[i] == s[j]
    ensures multiset(s)[s[i]] >= 2
  {
    var front, back := s[..j], s[j..];
    assert s == front + back;
    assert multiset(s) == multiset(front) + multiset(back);
    assert front[i] == s[i] && back[0] == s[i];
    assert s[i] in front && s[i] in back;
  }

  /** A permutation of a list without repeats has none either. */
  lemma DistinctPermutation<T>(s: seq<T>, t: seq<T>)
    requires Distinct(s) && Permutation(s, t)
    ensures Distinct(t)
  {
    forall i, j | 0 <= i < j < |t| ensures t[i] != t[j] {
      if t[i] == t[j] {
        RepeatedCount(t, i, j);
        DistinctCount(s, t[i]);
      }
    }
  }

  lemma DistinctSameMembers<T>(s: seq<T>, t: seq<T>)
    requires Distinct(s) && Distinct(t) && forall x :: x in s <==> x in t
    ensures Permutation(s, t)
  {
    forall x: T ensures multiset(s)[x] == multiset(t)[x] {
      DistinctCount(s, x);
      DistinctCount(t, x);
      assert x in s <==> x in multiset(s);
      assert x in t <==> x in multiset(t);
    }
  }

  /** Puts one more element into a sorted list. */
  method Insert<T(!new)>(s: seq<T>, x: T, less: (T, T) -> bool) returns (r: seq<T>)
    requires StrictWeak(less) && Sorted(s, less)
    ensures Sorted(r, less) && Permutation(r, s + [x])
  {
    var k := |s|;
    while k > 0 && less(x, s[k - 1])
      invariant 0 <= k <= |s|
      invariant forall i :: k <= i < |s| ==> less(x, s[i])
    {
      k := k - 1;
    }
    r := s[..k] + [x] + s[k..];
    assert s == s[..k] + s[k..];
    InsertedSorted(s, x, less, k);
  }

  lemma InsertedSorted<T(!new)>(s: seq<T>, x: T, less: (T, T) -> bool, k: nat)
    requires StrictWeak(less) && Sorted(s, less) && k <= |s|
    requires forall i :: k <= i < |s| ==> less(x, s[i])
    requires k > 0 ==> !less(x, s[k - 1])
    ensures Sorted(s[..k] + [x] + s[k..], less)
  {
    var r := s[..k] + [x] + s[k..];
    forall i | 0 <= i < k ensures !less(x, s[i]) {
      assert i < k - 1 ==> !less(s[k - 1], s[i]);
      NotBefore(less, x, s[k - 1], s[i]);
    }
    forall i | k <= i < |s| ensures !less(s[i], x) {
      NotBoth(less, x, s[i]);
    }
    forall i, j | 0 <= i < j < |r| ensures !less(r[j], r[i]) {
      if i != k && j != k {
        var i', j' := if i < k then i else i - 1, if j < k then j else j - 1;
        assert r[i] == s[i'] && r[j] == s[j'] && i' < j';
      }
    }
  }

  lemma NotBefore<T(!new)>(less: (T, T) -> bool, a: T, b: T, c: T)
    requires StrictWeak(less) && !less(a, b) && (b == c || !less(b, c))
    ensures !less(a, c)
  {
  }

  lemma NotBoth<T(!new)>(less: (T, T) -> bool, a: T, b: T)
    requires StrictWeak(less) && less(a, b)
    ensures !less(b, a)
  {
  }

  method Sort<T(!new)>(s: seq<T>, less: (T, T) -> bool) returns (r: seq<T>)
    requires StrictWeak(less)
    ensures Sorted(r, less) && Permutation(r, s) && |r| == |s|
  {
    r := [];
    for i := 0 to |s|
      invariant Sorted(r, less) && Permutation(r, s[..i])
    {
      r := Insert(r, s[i], less);
      assert s[..i + 1] == s[..i] + [s[i]];
    }
    assert s[..|s|] == s;
    assert |multiset(r)| == |multiset(s)|;
  }

  /** The head of a sorted list is minimal. */
  lemma SortedHead<T>(s: seq<T>, t: seq<T>, less: (T, T) -> bool, x: T)
    requires Permutation(s, t) && Sorted(s, less) && |s| > 0 && x in t
    requires !less(x, x)
    ensures s[0] in t && !less(x, s[0])
  {
    PermutationMember(s, t, x);
    PermutationMember(s, t, s[0]);
    var i :| 0 <= i < |s| && s[i] == x;
  }

  /** Where different elements never compare equal, there is exactly one sorted arrangement. */
  lemma {:induction false} SortedUnique<T(!new)>(s: seq<T>, t: seq<T>, less: (T, T) -> bool)
    requires StrictWeak(less) && TotalOn(s, less)
    requires Sorted(s, less) && Sorted(t, less) && Permutation(s, t)
    ensures s == t
  {
    assert |multiset(t)| == |multiset(s)|;
    if |s| > 0 {
      SameHead(s, t, less);
      assert s == [s[0]] + s[1..] && t == [t[0]] + t[1..];
      assert multiset(s[1..]) == multiset(s) - multiset{s[0]};
      assert multiset(t[1..]) == multiset(t) - multiset{t[0]};
      SortedUnique(s[1..], t[1..], less);
    }
  }

  lemma SameHead<T(!new)>(s: seq<T>, t: seq<T>, less: (T, T) -> bool)
    requires StrictWeak(less) && TotalOn(s, less) && |s| > 0 && |t| > 0
    requires Sorted(s, less) && Sorted(t, less) && Permutation(s, t)
    ensures s[0] == t[0]
  {
    SortedHead(s, t, less, t[0]);
    SortedHead(t, s, less, s[0]);
  }

  // ------------------------------------------------------------------------------------
  // Mapping a list through an injective function

  function MapSeq<T, U>(f: T -> U, s: seq<T>): (r: seq<U>)
    ensures |r| == |s| && forall i :: 0 <= i < |s| ==> r[i] == f(s[i])
  {
    seq(|s|, i requires 0 <= i < |s| => f(s[i]))
  }

  method MapList<T, U>(f: T -> U, s: seq<T>) returns (r: seq<U>)
    ensures r == MapSeq(f, s)
  {
    r := [];
    for i := 0 to |s|
      invariant r == MapSeq(f, s)[..i]
    {
      r := r + [f(s[i])];
    }
  }

  lemma MapAppend<T, U>(f: T -> U, s: seq<T>, t: seq<T>)
    ensures MapSeq(f, s + t) == MapSeq(f, s) + MapSeq(f, t)
  {
  }

  function Without<T>(s: seq<T>, j: nat): (r: seq<T>)
    requires j < |s|
    ensures |r| == |s| - 1
  {
    s[..j] + s[j + 1..]
  }

  lemma WithoutCount<T>(s: seq<T>, j: nat)
    requires j < |s|
    ensures multiset(s) == multiset(Without(s, j)) + multiset{s[j]}
  {
    assert s == s[..j] + [s[j]] + s[j + 1..];
  }

  lemma MapWithout<T, U>(f: T -> U, s: seq<T>, j: nat)
    requires j < |s|
    ensures multiset(MapSeq(f, s)) == multiset(MapSeq(f, Without(s, j))) + multiset{f(s[j])}
  {
    MapAppend(f, s[..j], s[j + 1..]);
    assert MapSeq(f, s) == MapSeq(f, s[..j]) + [f(s[j])] + MapSeq(f, s[j + 1..]);
  }

  /** Mapping keeps permutations, whatever the function. */
  lemma {:induction false} MapKeepsPermutation<T, U>(f: T -> U, s: seq<T>, t: seq<T>)
    requires Permutation(s, t)
    ensures Permutation(MapSeq(f, s), MapSeq(f, t))
  {
    assert |s| == |multiset(s)| == |multiset(t)| == |t|;
    if s != [] {
      PermutationMember(s, t, s[0]);
      var j :| 0 <= j < |t| && t[j] == s[0];
      WithoutCount(s, 0);
      WithoutCount(t, j);
      var head := multiset{s[0]};
      assert multiset(Without(s, 0)) == multiset(s) - head && multiset(Without(t, j)) == multiset(t) - head;
      MapKeepsPermutation(f, Without(s, 0), Without(t, j));
      MapWithout(f, s, 0);
      MapWithout(f, t, j);
    }
  }

  ghost predicate Injective<T(!new), U>(f: T -> U) {
    forall a, b :: f(a) == f(b) ==> a == b
  }

  lemma {:induction false} MapCount<T(!new), U>(f: T -> U, s: seq<T>, x: T)
    requires Injective(f)
    ensures multiset(MapSeq(f, s))[f(x)] == multiset(s)[x]
  {
    if s != [] {
      MapCount(f, s[1..], x);
      assert s == [s[0]] + s[1..];
      assert MapSeq(f, s) == [f(s[0])] + MapSeq(f, s[1..]);
    }
  }

  /** An injective map keeps and reflects equality as multisets. */
  lemma MapPermutation<T(!new), U(!new)>(f: T -> U, s: seq<T>, t: seq<T>)
    requires Injective(f)
    ensures Permutation(MapSeq(f, s), MapSeq(f, t)) <==> Permutation(s, t)
  {
    if Permutation(MapSeq(f, s), MapSeq(f, t)) {
      forall x: T ensures multiset(s)[x] == multiset(t)[x] {
        MapCount(f, s, x);
        MapCount(f, t, x);
      }
    }
    if Permutation(s, t) {
      forall y: U ensures multiset(MapSeq(f, s))[y] == multiset(MapSeq(f, t))[y] {
        if y in MapSeq(f, s) {
          var i :| 0 <= i < |s| && f(s[i]) == y;
          MapCount(f, s, s[i]);
          MapCount(f, t, s[i]);
        } else if y in MapSeq(f, t) {
          var i :| 0 <= i < |t| && f(t[i]) == y;
          MapCount(f, s, t[i]);
          MapCount(f, t, t[i]);
        }
      }
    }
  }
}
