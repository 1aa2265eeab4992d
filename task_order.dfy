/** `plan.tasks_content.sort(key=lambda t: t.start_at)`: Python's list sort is a stable sort
    that compares keys with `<`, and the key is the `start_at` string, so dates are ordered as
    text. The sort is modelled by an insertion sort, and proved to be the only ordering that
    is sorted and keeps the relative order of equal keys, which is what Python promises. */
module TaskOrder {
  import opened Schema

  /** Python's `<` on `str`: code point by code point, a proper prefix being smaller. */
  predicate StrLt(a: string, b: string)
    decreases |a|
  {
    if a == [] then b != []
    else if b == [] then false
    else if a[0] != b[0] then a[0] < b[0]
    else StrLt(a[1..], b[1..])
  }

  predicate StrLe(a: string, b: string)
  {
    !StrLt(b, a)
  }

  lemma {:induction false} StrLtIrreflexive(a: string)
    ensures !StrLt(a, a)
    decreases |a|
  {
    if a != [] {
      StrLtIrreflexive(a[1..]);
    }
  }

  lemma {:induction false} StrLtTransitive(a: string, b: string, c: string)
    requires StrLt(a, b) && StrLt(b, c)
    ensures StrLt(a, c)
    decreases |a|
  {
    if a != [] && a[0] == b[0] && b[0] == c[0] {
      StrLtTransitive(a[1..], b[1..], c[1..]);
    }
  }

  lemma {:induction false} StrLtTotal(a: string, b: string)
    ensures a == b || StrLt(a, b) || StrLt(b, a)
    decreases |a|
  {
    if a != [] && b != [] && a[0] == b[0] {
      StrLtTotal(a[1..], b[1..]);
      if a[1..] == b[1..] {
        assert a == [a[0]] + a[1..] && b == [b[0]] + b[1..];
      }
    }
  }

  /** `<=` on strings is a total order: the sort key is well behaved. */
  lemma StrLeTotalOrder(a: string, b: string, c: string)
    ensures StrLe(a, a)
    ensures StrLe(a, b) || StrLe(b, a)
    ensures StrLe(a, b) && StrLe(b, a) ==> a == b
    ensures StrLe(a, b) && StrLe(b, c) ==> StrLe(a, c)
  {
    StrLtIrreflexive(a);
    StrLtTotal(a, b);
    if StrLt(a, b) && StrLt(b, a) {
      StrLtTransitive(a, b, a);
    }
    if StrLe(a, b) && StrLe(b, c) && StrLt(c, a) {
      StrLtTotal(a, b);
      if StrLt(a, b) {
        StrLtTransitive(c, a, b);
      } else {
        assert a == b;
      }
    }
  }

  lemma StrLtLe(a: string, b: string, c: string)
    requires StrLt(a, b) && StrLe(b, c)
    ensures StrLt(a, c)
  {
    StrLtTotal(b, c);
    if StrLt(b, c) {
      StrLtTransitive(a, b, c);
    }
  }

  /** Non-decreasing by `start_at` under string order. */
  predicate Sorted(s: seq<TaskContent>)
  {
    forall i, j :: 0 <= i < j < |s| ==> StrLe(s[i].startAt, s[j].startAt)
  }

  /** Puts `x` after every element whose key is not greater than its own. */
  function Insert(x: TaskContent, s: seq<TaskContent>): (r: seq<TaskContent>)
    ensures multiset(r) == multiset(s) + multiset{x}
    ensures |r| == |s| + 1
  {
    if s == [] then [x]
    else if StrLt(x.startAt, s[0].startAt) then [x] + s
    else
      assert s == [s[0]] + s[1..];
      [s[0]] + Insert(x, s[1..])
  }

  /** The stable sort by `start_at`: the elements are inserted in their original order. */
  function SortByStart(s: seq<TaskContent>): (r: seq<TaskContent>)
    ensures multiset(r) == multiset(s)
    ensures |r| == |s|
  {
    if s == [] then []
    else
      assert s == s[..|s| - 1] + [s[|s| - 1]];
      Insert(s[|s| - 1], SortByStart(s[..|s| - 1]))
  }

  lemma {:induction false} InsertSorted(x: TaskContent, s: seq<TaskContent>)
    requires Sorted(s)
    ensures Sorted(Insert(x, s))
  {
    if s == [] {
    } else if StrLt(x.startAt, s[0].startAt) {
      forall j | 0 <= j < |s| ensures StrLe(x.startAt, s[j].startAt) {
        if j == 0 { StrLtIrreflexive(s[0].startAt); }
        LtBound(x.startAt, s[0].startAt, s[j].startAt);
      }
      SortedCons(x, s);
    } else {
      var t := s[1..];
      forall j | 0 <= j < |t| ensures StrLe(s[0].startAt, t[j].startAt) {
        assert t[j] == s[j + 1];
      }
      InsertLowerBound(s[0].startAt, x, t);
      InsertSorted(x, t);
      SortedCons(s[0], Insert(x, t));
    }
  }

  lemma SortedTail(s: seq<TaskContent>)
    requires Sorted(s) && s != []
    ensures Sorted(s[1..])
  {
    forall i, j | 0 <= i < j < |s| - 1 ensures StrLe(s[1..][i].startAt, s[1..][j].startAt) {
      assert s[1..][i] == s[i + 1] && s[1..][j] == s[j + 1];
    }
  }

  /** Every key of `s` is at least `k`. */
  predicate LowerBound(k: string, s: seq<TaskContent>) {
    forall i :: 0 <= i < |s| ==> StrLe(k, s[i].startAt)
  }

  lemma LtBound(a: string, b: string, c: string)
    requires StrLt(a, b) && StrLe(b, c)
    ensures StrLe(a, c)
  {
    StrLtLe(a, b, c);
    if StrLt(c, a) {
      StrLtTransitive(c, a, c);
      StrLtIrreflexive(c);
    }
  }

  lemma SortedCons(a: TaskContent, t: seq<TaskContent>)
    requires Sorted(t) && LowerBound(a.startAt, t)
    ensures Sorted([a] + t)
  {
    var r := [a] + t;
    forall i, j | 0 <= i < j < |r| ensures StrLe(r[i].startAt, r[j].startAt) {
      assert r[j] == t[j - 1];
      if i > 0 { assert r[i] == t[i - 1]; }
    }
  }

  lemma {:induction false} InsertLowerBound(k: string, x: TaskContent, s: seq<TaskContent>)
    requires LowerBound(k, s) && StrLe(k, x.startAt)
    ensures LowerBound(k, Insert(x, s))
  {
    if s != [] && !StrLt(x.startAt, s[0].startAt) {
      var t := s[1..];
      assert LowerBound(k, t) by {
        forall j | 0 <= j < |t| ensures StrLe(k, t[j].startAt) { assert t[j] == s[j + 1]; }
      }
      InsertLowerBound(k, x, t);
      var r := [s[0]] + Insert(x, t);
      forall j | 0 <= j < |r| ensures StrLe(k, r[j].startAt) {
        if j > 0 { assert r[j] == Insert(x, t)[j - 1]; }
      }
    }
  }

  /** The result of the sort is non-decreasing by `start_at`. */
  lemma {:induction false} SortByStartSorted(s: seq<TaskContent>)
    ensures Sorted(SortByStart(s))
  {
    if s != [] {
      SortByStartSorted(s[..|s| - 1]);
      InsertSorted(s[|s| - 1], SortByStart(s[..|s| - 1]));
    }
  }

  /** The elements of `s` whose key is `k`, in their order in `s`. */
  function FilterKey(s: seq<TaskContent>, k: string): seq<TaskContent>
  {
    if s == [] then []
    else (if s[0].startAt == k then [s[0]] else []) + FilterKey(s[1..], k)
  }

  lemma {:induction false} FilterKeyConcat(a: seq<TaskContent>, b: seq<TaskContent>, k: string)
    ensures FilterKey(a + b, k) == FilterKey(a, k) + FilterKey(b, k)
  {
    if a == [] {
      assert a + b == b;
    } else {
      var h := if a[0].startAt == k then [a[0]] else [];
      assert (a + b)[0] == a[0];
      assert (a + b)[1..] == a[1..] + b;
      assert FilterKey(a + b, k) == h + FilterKey(a[1..] + b, k);
      FilterKeyConcat(a[1..], b, k);
      assert FilterKey(a, k) == h + FilterKey(a[1..], k);
      assert h + (FilterKey(a[1..], k) + FilterKey(b, k)) == (h + FilterKey(a[1..], k)) + FilterKey(b, k);
    }
  }

  lemma {:induction false} FilterKeyMember(s: seq<TaskContent>, k: string)
    requires FilterKey(s, k) != []
    ensures FilterKey(s, k)[0] in s && FilterKey(s, k)[0].startAt == k
  {
    if s[0].startAt != k {
      FilterKeyMember(s[1..], k);
    }
  }

  lemma {:induction false} FilterKeyBelowHead(s: seq<TaskContent>, k: string)
    requires Sorted(s) && s != [] && StrLt(k, s[0].startAt)
    ensures FilterKey(s, k) == []
  {
    StrLtIrreflexive(k);
    if |s| > 1 {
      assert StrLe(s[0].startAt, s[1].startAt);
      StrLtLe(k, s[0].startAt, s[1].startAt);
      FilterKeyBelowHead(s[1..], k);
    }
  }

  lemma {:induction false} InsertFilter(x: TaskContent, s: seq<TaskContent>, k: string)
    requires Sorted(s)
    ensures FilterKey(Insert(x, s), k) == FilterKey(s, k) + (if x.startAt == k then [x] else [])
  {
    if s == [] {
      assert FilterKey([x], k) == (if x.startAt == k then [x] else []) + FilterKey([], k);
    } else if StrLt(x.startAt, s[0].startAt) {
      InsertFilterFront(x, s, k);
    } else {
      SortedTail(s);
      InsertFilter(x, s[1..], k);
      InsertFilterStep(x, s, k);
    }
  }

  /** `x` goes in front, and no element of `s` has the key of `x`. */
  lemma InsertFilterFront(x: TaskContent, s: seq<TaskContent>, k: string)
    requires Sorted(s) && s != [] && StrLt(x.startAt, s[0].startAt)
    ensures FilterKey(Insert(x, s), k) == FilterKey(s, k) + (if x.startAt == k then [x] else [])
  {
    var hx := if x.startAt == k then [x] else [];
    assert Insert(x, s) == [x] + s;
    assert ([x] + s)[1..] == s;
    assert FilterKey([x] + s, k) == hx + FilterKey(s, k);
    if x.startAt == k {
      FilterKeyBelowHead(s, k);
    }
  }

  /** `x` goes after the head of `s`: the head's share comes first either way. */
  lemma InsertFilterStep(x: TaskContent, s: seq<TaskContent>, k: string)
    requires s != [] && !StrLt(x.startAt, s[0].startAt)
    requires FilterKey(Insert(x, s[1..]), k) == FilterKey(s[1..], k) + (if x.startAt == k then [x] else [])
    ensures FilterKey(Insert(x, s), k) == FilterKey(s, k) + (if x.startAt == k then [x] else [])
  {
    InsertCons(x, s);
    assert s == [s[0]] + s[1..];
    FilterKeyPrepend(s[0], Insert(x, s[1..]), s[1..], if x.startAt == k then [x] else [], k);
  }

  /** Putting the same element in front of two lists keeps a relation between their filters. */
  lemma FilterKeyPrepend(h: TaskContent, t: seq<TaskContent>, rest: seq<TaskContent>,
                         extra: seq<TaskContent>, k: string)
    requires FilterKey(t, k) == FilterKey(rest, k) + extra
    ensures FilterKey([h] + t, k) == FilterKey([h] + rest, k) + extra
  {
    var h0 := if h.startAt == k then [h] else [];
    FilterKeyCons(h, t, k);
    FilterKeyCons(h, rest, k);
    assert h0 + (FilterKey(rest, k) + extra) == (h0 + FilterKey(rest, k)) + extra;
  }

  lemma InsertCons(x: TaskContent, s: seq<TaskContent>)
    requires s != [] && !StrLt(x.startAt, s[0].startAt)
    ensures Insert(x, s) == [s[0]] + Insert(x, s[1..])
  {
  }

  lemma FilterKeyCons(h: TaskContent, t: seq<TaskContent>, k: string)
    ensures FilterKey([h] + t, k) == (if h.startAt == k then [h] else []) + FilterKey(t, k)
  {
    assert ([h] + t)[1..] == t;
  }

  /** Stability: for every key, the elements carrying it keep their relative order. */
  lemma {:induction false} SortByStartStable(s: seq<TaskContent>, k: string)
    ensures FilterKey(SortByStart(s), k) == FilterKey(s, k)
  {
    if s != [] {
      var init, last := s[..|s| - 1], s[|s| - 1];
      var sorted := SortByStart(init);
      SortByStartStable(init, k);
      SortByStartSorted(init);
      InsertFilter(last, sorted, k);
      FilterKeySnoc(s, k);
    }
  }

  lemma FilterKeySnoc(s: seq<TaskContent>, k: string)
    requires s != []
    ensures FilterKey(s, k) == FilterKey(s[..|s| - 1], k) + (if s[|s| - 1].startAt == k then [s[|s| - 1]] else [])
  {
    var init, last := s[..|s| - 1], s[|s| - 1];
    assert s == init + [last];
    FilterKeyConcat(init, [last], k);
    assert FilterKey([last], k) == (if last.startAt == k then [last] else []) + FilterKey([], k);
  }

  lemma {:induction false} SameFiltersEqual(a: seq<TaskContent>, b: seq<TaskContent>)
    requires Sorted(a) && Sorted(b)
    requires forall k :: FilterKey(a, k) == FilterKey(b, k)
    ensures a == b
    decreases |a| + |b|
  {
    if a == [] && b != [] {
      ghost var probe := FilterKey(b, b[0].startAt);
      assert false;
    } else if a != [] && b == [] {
      ghost var probe := FilterKey(a, a[0].startAt);
      assert false;
    } else if a != [] {
      var ka, kb := a[0].startAt, b[0].startAt;
      HeadKeyBound(a, b, ka);
      HeadKeyBound(b, a, kb);
      StrLeTotalOrder(ka, kb, ka);
      assert FilterKey(a, ka)[0] == a[0];
      assert FilterKey(b, ka)[0] == b[0];
      forall k ensures FilterKey(a[1..], k) == FilterKey(b[1..], k) {
        var ha := if a[0].startAt == k then [a[0]] else [];
        assert FilterKey(a, k) == ha + FilterKey(a[1..], k);
        assert FilterKey(b, k) == ha + FilterKey(b[1..], k);
        assert (ha + FilterKey(a[1..], k))[|ha|..] == FilterKey(a[1..], k);
        assert (ha + FilterKey(b[1..], k))[|ha|..] == FilterKey(b[1..], k);
      }
      SameFiltersEqual(a[1..], b[1..]);
      assert a == [a[0]] + a[1..] && b == [b[0]] + b[1..];
    }
  }

  /** If `a`'s head has key `k` and both lists hold the same elements under `k`, then `b`'s
      head key is at most `k`. */
  lemma HeadKeyBound(a: seq<TaskContent>, b: seq<TaskContent>, k: string)
    requires Sorted(b) && a != [] && b != [] && a[0].startAt == k
    requires FilterKey(a, k) == FilterKey(b, k)
    ensures StrLe(b[0].startAt, k)
  {
    assert FilterKey(a, k) != [];
    FilterKeyMember(b, k);
    var j :| 0 <= j < |b| && b[j] == FilterKey(b, k)[0];
    if j == 0 {
      StrLtIrreflexive(k);
    }
  }

  /** Uniqueness: any ordering of `s` that is sorted by `start_at` and keeps the relative order
      of equal keys is exactly `SortByStart(s)`, so the insertion sort stands for Python's sort. */
  lemma SortByStartUnique(r: seq<TaskContent>, s: seq<TaskContent>)
    requires Sorted(r)
    requires forall k :: FilterKey(r, k) == FilterKey(s, k)
    ensures r == SortByStart(s)
  {
    SortByStartSorted(s);
    forall k ensures FilterKey(r, k) == FilterKey(SortByStart(s), k) {
      SortByStartStable(s, k);
    }
    SameFiltersEqual(r, SortByStart(s));
  }

  /** A common prefix does not change the comparison. */
  lemma {:induction false} StrLtCommonPrefix(p: string, a: string, b: string)
    ensures StrLt(p + a, p + b) == StrLt(a, b)
  {
    if p != [] {
      assert (p + a)[1..] == p[1..] + a && (p + b)[1..] == p[1..] + b;
      StrLtCommonPrefix(p[1..], a, b);
    } else {
      assert p + a == a && p + b == b;
    }
  }

  /** Sorting two tasks inserts the second into the first alone. */
  lemma SortPair(t1: TaskContent, t2: TaskContent)
    ensures SortByStart([t1, t2]) == Insert(t2, [t1])
  {
    assert [t1][..0] == [];
    assert SortByStart([t1]) == Insert(t1, []);
    assert [t1, t2][..1] == [t1];
  }

  /** Two tasks given out of date order come out in date order. */
  lemma SortExample(t1: TaskContent, t2: TaskContent)
    requires t1.startAt == "2026-03-02" && t2.startAt == "2026-03-01"
    ensures SortByStart([t1, t2]) == [t2, t1]
  {
    assert StrLt(t2.startAt, t1.startAt) by {
      assert t2.startAt == "2026-03-0" + "1" && t1.startAt == "2026-03-0" + "2";
      StrLtCommonPrefix("2026-03-0", "1", "2");
    }
    SortPair(t1, t2);
    assert Insert(t2, [t1]) == [t2] + [t1];
  }

  /** Two tasks with the same start keep the order they were given in. */
  lemma SortExampleTie(t2: TaskContent, t3: TaskContent)
    requires t2.startAt == "2026-03-01" && t3.startAt == "2026-03-01"
    ensures SortByStart([t2, t3]) == [t2, t3]
  {
    assert !StrLt(t3.startAt, t2.startAt) by { StrLtIrreflexive(t2.startAt); }
    SortPair(t2, t3);
    assert [t2][1..] == [];
    assert Insert(t3, []) == [t3];
  }
}
