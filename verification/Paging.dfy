/** Listing page by page, and removing repeated IDs in place. */
module Paging {
  import opened Wrappers

  const PAGE_SIZE := 50

  /** One list request: an error, or the total count the server reports with the page's elements. */
  datatype Page<+T> = PageError | Page(count: nat, items: seq<T>)

  // ------------------------------------------------------------------------------------
  // In-place removal of repeated IDs

  ghost predicate DistinctIds<T>(s: seq<T>, id: T -> string) {
    forall i, j :: 0 <= i < j < |s| ==> id(s[i]) != id(s[j])
  }

  ghost function Ids<T>(s: seq<T>, id: T -> string): set<string> {
    set i | 0 <= i < |s| :: id(s[i])
  }

  /** What the loop keeps: the visited part has the IDs already seen, once each, and no ID of the
      original list has been lost. */
  ghost predicate DedupInvariant<T>(original: seq<T>, current: seq<T>, i: nat, seen: set<string>, id: T -> string) {
    && i <= |current|
    && (forall k :: 0 <= k < |current| ==> current[k] in original)
    && DistinctIds(current[..i], id)
    && seen == Ids(current[..i], id)
    && Ids(current, id) == Ids(original, id)
  }

  lemma DropRepeated<T>(original: seq<T>, current: seq<T>, next: seq<T>, i: nat, seen: set<string>, id: T -> string)
    requires DedupInvariant(original, current, i, seen, id)
    requires i < |current| && id(current[i]) in seen
    requires next == current[i := current[|current| - 1]][..|current| - 1]
    ensures DedupInvariant(original, next, i, seen, id)
  {
    var last := |current| - 1;
    var twin :| 0 <= twin < i && id(current[..i][twin]) == id(current[i]);
    assert next[..i] == current[..i];
    forall x | x in Ids(current, id) ensures x in Ids(next, id) {
      var k :| 0 <= k < |current| && id(current[k]) == x;
      if k == last {
        if i == last { assert id(next[twin]) == x; } else { assert id(next[i]) == x; }
      } else if k == i {
        assert id(next[twin]) == x;
      } else {
        assert id(next[k]) == x;
      }
    }
    forall x | x in Ids(next, id) ensures x in Ids(current, id) {
      var k :| 0 <= k < |next| && id(next[k]) == x;
      if k == i { assert id(current[last]) == x; } else { assert id(current[k]) == x; }
    }
  }

  lemma KeepNew<T>(original: seq<T>, current: seq<T>, i: nat, seen: set<string>, id: T -> string)
    requires DedupInvariant(original, current, i, seen, id)
    requires i < |current| && id(current[i]) !in seen
    ensures DedupInvariant(original, current, i + 1, seen + {id(current[i])}, id)
  {
    var before, after := current[..i], current[..i + 1];
    assert after == before + [current[i]];
    forall k | 0 <= k < i ensures id(after[k]) != id(current[i]) {
      assert id(before[k]) in seen;
    }
    forall x | x in Ids(after, id) ensures x in seen + {id(current[i])} {
      var k :| 0 <= k < |after| && id(after[k]) == x;
      if k < i { assert id(before[k]) == x; }
    }
    forall x | x in seen + {id(current[i])} ensures x in Ids(after, id) {
      if x == id(current[i]) {
        assert id(after[i]) == x;
      } else {
        var k :| 0 <= k < |before| && id(before[k]) == x;
        assert id(after[k]) == x;
      }
    }
  }

  /** Overwrites a repeated element with the last one and shortens the list; the first `n`
      elements are what is left. Order and first occurrences are not kept. */
  method Dedup<T>(a: array<T>, id: T -> string) returns (n: nat)
    modifies a
    ensures n <= a.Length
    ensures DistinctIds(a[..n], id)
    ensures Ids(a[..n], id) == Ids(old(a[..]), id)
    ensures forall k :: 0 <= k < n ==> a[k] in old(a[..])
  {
    ghost var original := a[..];
    var existing: set<string> := {};
    n := a.Length;
    var i := 0;
    assert a[..n] == original;
    while i < n
      invariant 0 <= i <= n <= a.Length
      invariant DedupInvariant(original, a[..n], i, existing, id)
      decreases n - i
    {
      ghost var current := a[..n];
      if id(a[i]) in existing {
        a[i] := a[n - 1];
        n := n - 1;
        assert a[..n] == current[i := current[|current| - 1]][..|current| - 1];
        DropRepeated(original, current, a[..n], i, existing, id);
      } else {
        KeepNew(original, current, i, existing, id);
        existing := existing + {id(a[i])};
        i := i + 1;
      }
    }
    assert a[..n][..i] == a[..n];
    forall k | 0 <= k < n ensures a[k] in original {
      assert a[..n][k] in original;
    }
  }

  // ------------------------------------------------------------------------------------
  // The paging loop

  /** Page number `page`, from 1, of a fixed list. */
  function PageOf<T>(list: seq<T>, pageSize: nat, page: nat): Page<T>
    requires pageSize > 0 && page > 0
  {
    var from := (page - 1) * pageSize;
    var to := page * pageSize;
    Page(|list|, if from >= |list| then [] else if to >= |list| then list[from..] else list[from..to])
  }

  /** How many requests a fixed list takes: one per page begun, and one even if it is empty. */
  function PageCount(length: nat, pageSize: nat): nat
    requires pageSize > 0
  {
    if length == 0 then 1 else (length + pageSize - 1) / pageSize
  }

  /** The server serves pages of one list, where it does not fail. */
  ghost predicate Serves<T(!new)>(fetch: nat -> Page<T>, pageSize: nat, list: seq<T>)
    requires pageSize > 0
  {
    forall page: nat :: page > 0 ==> fetch(page).PageError? || fetch(page) == PageOf(list, pageSize, page)
  }

  ghost predicate Bounded<T(!new)>(fetch: nat -> Page<T>, bound: nat) {
    forall page: nat :: page > 0 && fetch(page).Page? ==> fetch(page).count <= bound
  }

  /** What the first `pages` pages of a list hold. */
  function FirstPages<T>(list: seq<T>, pageSize: nat, pages: nat): seq<T>
    requires pageSize > 0
  {
    if pages == 0 then [] else FirstPages(list, pageSize, pages - 1) + PageOf(list, pageSize, pages).items
  }

  function Prefix<T>(list: seq<T>, n: nat): seq<T> {
    if n >= |list| then list else list[..n]
  }

  lemma PrefixGrows<T>(list: seq<T>, from: nat, until: nat)
    requires from <= until
    ensures Prefix(list, until) ==
            Prefix(list, from) + (if from >= |list| then [] else if until >= |list| then list[from..] else list[from..until])
  {
  }

  lemma {:induction false} FirstPagesPrefix<T>(list: seq<T>, pageSize: nat, pages: nat)
    requires pageSize > 0
    ensures FirstPages(list, pageSize, pages) == Prefix(list, pages * pageSize)
  {
    if pages > 0 {
      FirstPagesPrefix(list, pageSize, pages - 1);
      assert pages * pageSize == (pages - 1) * pageSize + pageSize;
      PrefixGrows(list, (pages - 1) * pageSize, pages * pageSize);
    }
  }

  lemma SmallMultiple(a: int, d: int)
    requires 0 - d < a * d < d
    ensures a == 0
  {
    assert a >= 1 ==> a * d >= d;
    assert a <= -1 ==> (-a) * d >= d;
  }

  lemma DivideExact(x: nat, d: nat, q: nat)
    requires d > 0 && q * d <= x < q * d + d
    ensures x / d == q
  {
    var k, r := x / d, x % d;
    assert x == k * d + r && 0 <= r < d;
    assert (k - q) * d == k * d - q * d;
    SmallMultiple(k - q, d);
  }

  lemma PageCountExact(length: nat, pageSize: nat, page: nat)
    requires pageSize > 0 && page > 0
    requires page > 1 ==> (page - 1) * pageSize < length
    requires page * pageSize >= length
    ensures PageCount(length, pageSize) == page
  {
    assert page * pageSize == (page - 1) * pageSize + pageSize;
    if length > 0 {
      if page == 1 { assert (page - 1) * pageSize == 0; }
      DivideExact(length + pageSize - 1, pageSize, page);
    }
  }

  /** Where the loop stands before request number `page`, whatever fixed list is being served. */
  ghost predicate Collected<T(!new)>(fetch: nat -> Page<T>, pageSize: nat, page: nat, got: seq<T>)
    requires pageSize > 0 && page > 0
  {
    forall list :: Serves(fetch, pageSize, list) ==>
      got == FirstPages(list, pageSize, page - 1) && (page > 1 ==> |got| < |list|)
  }

  ghost predicate Complete<T(!new)>(fetch: nat -> Page<T>, pageSize: nat, requests: nat, got: seq<T>)
    requires pageSize > 0
  {
    forall list :: Serves(fetch, pageSize, list) ==> got == list && requests == PageCount(|list|, pageSize)
  }

  lemma NextPage<T(!new)>(fetch: nat -> Page<T>, pageSize: nat, page: nat, got: seq<T>)
    requires pageSize > 0 && page > 0 && Collected(fetch, pageSize, page, got) && fetch(page).Page?
    ensures var got' := got + fetch(page).items;
            if fetch(page).items == [] || |got'| >= fetch(page).count then Complete(fetch, pageSize, page, got')
            else Collected(fetch, pageSize, page + 1, got')
  {
    forall list | Serves(fetch, pageSize, list)
      ensures var got' := got + fetch(page).items;
              if fetch(page).items == [] || |got'| >= fetch(page).count then got' == list && page == PageCount(|list|, pageSize)
              else got' == FirstPages(list, pageSize, page) && |got'| < |list|
    {
      OneMorePage(list, pageSize, page);
    }
  }

  /** The pages of a fixed list up to this one, and when they are all. */
  lemma OneMorePage<T>(list: seq<T>, pageSize: nat, page: nat)
    requires pageSize > 0 && page > 0 && (page > 1 ==> |FirstPages(list, pageSize, page - 1)| < |list|)
    ensures var (got, items) := (FirstPages(list, pageSize, page), PageOf(list, pageSize, page).items);
            if items == [] || |got| >= |list| then got == list && page == PageCount(|list|, pageSize) else |got| < |list|
  {
    FirstPagesPrefix(list, pageSize, page - 1);
    FirstPagesPrefix(list, pageSize, page);
    assert page * pageSize == (page - 1) * pageSize + pageSize;
    if page * pageSize >= |list| {
      assert page == 1 ==> (page - 1) * pageSize == 0;
      PageCountExact(|list|, pageSize, page);
    }
  }

  /** A page is only asked for while the list goes on. */
  lemma WithinPages<T(!new)>(fetch: nat -> Page<T>, pageSize: nat, page: nat, got: seq<T>)
    requires pageSize > 0 && page > 0 && Collected(fetch, pageSize, page, got)
    ensures forall list :: Serves(fetch, pageSize, list) ==> page <= PageCount(|list|, pageSize)
  {
    forall list | Serves(fetch, pageSize, list) ensures page <= PageCount(|list|, pageSize) {
      FirstPagesPrefix(list, pageSize, page - 1);
      if page > 1 {
        assert (page - 1) * pageSize < |list|;
        EnoughPages(|list|, pageSize, page);
      } else {
        EnoughPages(|list|, pageSize, 1);
      }
    }
  }

  lemma {:induction false} ProductGrows(a: nat, b: nat, d: nat)
    requires a <= b
    ensures a * d <= b * d
    decreases b
  {
    if a < b {
      ProductGrows(a, b - 1, d);
      assert b * d == (b - 1) * d + d;
    }
  }

  lemma QuotientAtLeast(x: nat, d: nat, q: nat)
    requires d > 0 && q * d <= x
    ensures q <= x / d
  {
    var k := x / d;
    assert x == k * d + x % d;
    assert (k + 1) * d == k * d + d;
    if k < q {
      ProductGrows(k + 1, q, d);
    }
  }

  lemma EnoughPages(length: nat, pageSize: nat, page: nat)
    requires pageSize > 0 && page > 0 && (page > 1 ==> (page - 1) * pageSize < length)
    ensures page <= PageCount(length, pageSize)
  {
    if length > 0 {
      assert page * pageSize == (page - 1) * pageSize + pageSize;
      assert page == 1 ==> (page - 1) * pageSize == 0;
      QuotientAtLeast(length + pageSize - 1, pageSize, page);
    }
  }

  /** Requests pages until one is empty or the reported total is reached. It always stops: with
      reported totals of at most `bound` it asks at most max(1, bound) times. */
  method CollectPages<T(!new)>(pageSize: nat, fetch: nat -> Page<T>, ghost bound: nat)
    returns (result: Option<seq<T>>, requests: nat)
    requires pageSize > 0 && Bounded(fetch, bound)
    ensures 1 <= requests <= (if bound == 0 then 1 else bound)
    ensures result.None? <==> fetch(requests).PageError?
    ensures forall page: nat :: 1 <= page < requests ==> fetch(page).Page?
    ensures result.Some? ==> Complete(fetch, pageSize, requests, result.value)
    ensures forall list :: Serves(fetch, pageSize, list) ==> requests <= PageCount(|list|, pageSize)
  {
    var page := 1;
    var got: seq<T> := [];
    while true
      invariant page >= 1 && page - 1 <= |got|
      invariant page == 1 || (page <= bound && |got| < bound)
      invariant forall p: nat :: 1 <= p < page ==> fetch(p).Page?
      invariant Collected(fetch, pageSize, page, got)
      decreases if page == 1 then 1 else 0, bound - |got|
    {
      var answer := fetch(page);
      WithinPages(fetch, pageSize, page, got);
      if answer.PageError? {
        return None, page;
      }
      assert answer.count <= bound;
      NextPage(fetch, pageSize, page, got);
      got := got + answer.items;
      if |answer.items| == 0 || |got| >= answer.count {
        return Some(got), page;
      }
      page := page + 1;
    }
  }

  /** The full listing: all pages, then repeated IDs removed. A fixed list takes one request per
      page, and the result has exactly its IDs, once each, on elements of the list. */
  method ListAllPages<T(!new)>(pageSize: nat, fetch: nat -> Page<T>, id: T -> string, ghost bound: nat)
    returns (result: Option<seq<T>>, requests: nat)
    requires pageSize > 0 && Bounded(fetch, bound)
    ensures 1 <= requests <= (if bound == 0 then 1 else bound)
    ensures result.None? <==> fetch(requests).PageError?
    ensures forall page: nat :: 1 <= page < requests ==> fetch(page).Page?
    ensures result.Some? ==> DistinctIds(result.value, id)
    ensures forall list :: Serves(fetch, pageSize, list) ==>
              && requests <= PageCount(|list|, pageSize)
              && (result.Some? ==>
                    && requests == PageCount(|list|, pageSize)
                    && Ids(result.value, id) == Ids(list, id)
                    && forall x :: x in result.value ==> x in list)
  {
    var collected;
    collected, requests := CollectPages(pageSize, fetch, bound);
    if collected.None? {
      return None, requests;
    }
    var got := collected.value;
    var a := new T[|got|](i requires 0 <= i < |got| => got[i]);
    assert a[..] == got;
    var n := Dedup(a, id);
    result := Some(a[..n]);
    forall x | x in a[..n] ensures x in got {
      var k :| 0 <= k < n && a[k] == x;
    }
  }
}
