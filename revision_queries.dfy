/** The list operations both in-memory stores build their queries from:
    Kotlin's `filter`, `firstOrNull` and the stable `sortedByDescending`
    over a revision's time, and the theorem that sorting by time descending
    and taking the first revision at or before an instant selects the latest
    such revision, the earliest-inserted one among equal times. */
module RevisionQueries {
  import opened Wrappers
  import opened Revisions

  /** `r` keeps some of the elements of `s`, in their order in `s`. */
  predicate IsSubsequence(r: seq<Revision>, s: seq<Revision>)
    decreases |s|
  {
    if r == [] then true
    else if s == [] then false
    else (r[0] == s[0] && IsSubsequence(r[1..], s[1..])) || IsSubsequence(r, s[1..])
  }

  /** Kotlin's `filter`. */
  function Filter(s: seq<Revision>, p: Revision -> bool): seq<Revision> {
    if s == [] then [] else (if p(s[0]) then [s[0]] else []) + Filter(s[1..], p)
  }

  /** `filter` keeps exactly the elements that pass the test. */
  lemma {:induction false} FilterMembers(s: seq<Revision>, p: Revision -> bool)
    ensures forall x :: x in Filter(s, p) <==> x in s && p(x)
  {
    if s != [] {
      FilterMembers(s[1..], p);
      assert forall x :: x in s <==> x == s[0] || x in s[1..];
    }
  }

  /** `filter` keeps the order of the list it filters. */
  lemma {:induction false} FilterKeepsOrder(s: seq<Revision>, p: Revision -> bool)
    ensures IsSubsequence(Filter(s, p), s)
  {
    if s != [] {
      FilterKeepsOrder(s[1..], p);
      var rest := Filter(s[1..], p);
      if p(s[0]) {
        assert Filter(s, p) == [s[0]] + rest;
        assert ([s[0]] + rest)[1..] == rest;
      } else {
        assert Filter(s, p) == rest;
      }
    }
  }

  /** `filter` keeps every element that passes the test as often as it
      occurs, and no other. */
  lemma {:induction false} FilterCounts(s: seq<Revision>, p: Revision -> bool)
    ensures forall x :: multiset(Filter(s, p))[x] == if p(x) then multiset(s)[x] else 0
  {
    if s != [] {
      FilterCounts(s[1..], p);
      assert s == [s[0]] + s[1..];
    }
  }

  /** Kotlin's `firstOrNull(p)`. */
  function FindFirst(s: seq<Revision>, p: Revision -> bool): (r: Option<Revision>)
    ensures r.None? <==> forall i :: 0 <= i < |s| ==> !p(s[i])
    ensures r.Some? ==> exists i :: 0 <= i < |s| && s[i] == r.value && p(s[i]) && forall j :: 0 <= j < i ==> !p(s[j])
  {
    if s == [] then None
    else if p(s[0]) then Some(s[0])
    else
      var r := FindFirst(s[1..], p);
      assert r.Some? ==> exists i :: 1 <= i < |s| && s[i] == r.value && p(s[i]) && forall j :: 1 <= j < i ==> !p(s[j]) by {
        if r.Some? {
          var i :| 0 <= i < |s[1..]| && s[1..][i] == r.value && p(s[1..][i]) && forall j :: 0 <= j < i ==> !p(s[1..][j]);
          assert forall j :: 1 <= j < i + 1 ==> !p(s[j]) by {
            forall j | 1 <= j < i + 1 ensures !p(s[j]) { assert s[j] == s[1..][j - 1]; }
          }
        }
      }
      r
  }

  /** The first match is determined by its position: a matching element with
      no match before it is what `FindFirst` returns. */
  lemma {:induction false} FindFirstAt(s: seq<Revision>, p: Revision -> bool, i: int)
    requires 0 <= i < |s| && p(s[i])
    requires forall j :: 0 <= j < i ==> !p(s[j])
    ensures FindFirst(s, p) == Some(s[i])
  {
    if i > 0 {
      FindFirstAt(s[1..], p, i - 1);
    }
  }

  /** The head of `filter(p)` is `firstOrNull(p)`. */
  lemma {:induction false} FilterHead(s: seq<Revision>, p: Revision -> bool)
    ensures Filter(s, p) == [] <==> FindFirst(s, p).None?
    ensures Filter(s, p) != [] ==> FindFirst(s, p) == Some(Filter(s, p)[0])
  {
    if s != [] && !p(s[0]) {
      FilterHead(s[1..], p);
    }
  }

  /** The conjunction of two tests. */
  function Both(p: Revision -> bool, q: Revision -> bool): (r: Revision -> bool)
    ensures forall x :: r(x) <==> p(x) && q(x)
  {
    (x: Revision) => p(x) && q(x)
  }

  /** Searching a filtered list finds the first element of the list that
      passes both tests. */
  lemma {:induction false} FindFirstOfFilter(s: seq<Revision>, p: Revision -> bool, q: Revision -> bool)
    ensures FindFirst(Filter(s, p), q) == FindFirst(s, Both(p, q))
  {
    if s != [] {
      FindFirstOfFilter(s[1..], p, q);
      var f' := Filter(s[1..], p);
      if p(s[0]) {
        assert Filter(s, p) == [s[0]] + f';
        assert ([s[0]] + f')[1..] == f';
      } else {
        assert !Both(p, q)(s[0]);
        assert Filter(s, p) == f';
      }
    }
  }

  /** `{ it.time <= t }` */
  function AtOrBefore(t: int): (p: Revision -> bool)
    ensures forall r :: p(r) <==> r.time <= t
  {
    (r: Revision) => r.time <= t
  }

  /** `{ it.time == t }` */
  function WithTime(t: int): (p: Revision -> bool)
    ensures forall r :: p(r) <==> r.time == t
  {
    (r: Revision) => r.time == t
  }

  /** `{ it.changeNumber == n }` */
  function WithChangeNumber(n: int): (p: Revision -> bool)
    ensures forall r :: p(r) <==> r.changeNumber == n
  {
    (r: Revision) => r.changeNumber == n
  }

  predicate SortedByTimeDescending(s: seq<Revision>) {
    forall i, j :: 0 <= i < j < |s| ==> s[i].time >= s[j].time
  }

  /** Inserts `x` into a list sorted by descending time, in front of every
      element whose time is not later than its own. */
  function InsertByTime(x: Revision, l: seq<Revision>): (r: seq<Revision>)
    ensures multiset(r) == multiset(l) + multiset{x}
  {
    if l == [] then [x]
    else if l[0].time <= x.time then [x] + l
    else
      assert l == [l[0]] + l[1..];
      [l[0]] + InsertByTime(x, l[1..])
  }

  /** Inserting `x` keeps every revision no later than a bound that `x` and
      the list both respect. */
  lemma {:induction false} InsertKeepsBound(x: Revision, l: seq<Revision>, b: int)
    requires x.time <= b && forall k :: 0 <= k < |l| ==> l[k].time <= b
    ensures forall k :: 0 <= k < |InsertByTime(x, l)| ==> InsertByTime(x, l)[k].time <= b
  {
    if l != [] && l[0].time > x.time {
      assert forall k :: 0 <= k < |l[1..]| ==> l[1..][k] == l[k + 1];
      InsertKeepsBound(x, l[1..], b);
      var rest := InsertByTime(x, l[1..]);
      assert forall k :: 1 <= k < |rest| + 1 ==> ([l[0]] + rest)[k] == rest[k - 1];
    } else {
      assert forall k :: 1 <= k < |l| + 1 ==> ([x] + l)[k] == l[k - 1];
    }
  }

  /** A sorted list behind a head no earlier than any of its elements is
      sorted. */
  lemma ConsSorted(h: Revision, rest: seq<Revision>)
    requires SortedByTimeDescending(rest)
    requires forall k :: 0 <= k < |rest| ==> rest[k].time <= h.time
    ensures SortedByTimeDescending([h] + rest)
  {
    var r := [h] + rest;
    forall i, j | 0 <= i < j < |r| ensures r[i].time >= r[j].time {
      assert r[j] == rest[j - 1];
      if i > 0 { assert r[i] == rest[i - 1]; }
    }
  }

  lemma {:induction false} InsertKeepsSorted(x: Revision, l: seq<Revision>)
    requires SortedByTimeDescending(l)
    ensures SortedByTimeDescending(InsertByTime(x, l))
  {
    if l == [] {
      ConsSorted(x, l);
    } else if l[0].time <= x.time {
      assert forall k :: 0 <= k < |l| ==> l[k].time <= l[0].time;
      ConsSorted(x, l);
    } else {
      var tail := l[1..];
      assert forall k :: 0 <= k < |tail| ==> tail[k] == l[k + 1];
      InsertKeepsSorted(x, tail);
      InsertKeepsBound(x, tail, l[0].time);
      ConsSorted(l[0], InsertByTime(x, tail));
    }
  }

  /** Kotlin's `sortedByDescending { it.time }`, an insertion sort that,
      like Kotlin's, is stable. */
  function SortByTimeDescending(s: seq<Revision>): (r: seq<Revision>)
    ensures multiset(r) == multiset(s)
    ensures SortedByTimeDescending(r)
  {
    if s == [] then []
    else
      var rest := SortByTimeDescending(s[1..]);
      assert s == [s[0]] + s[1..];
      InsertKeepsSorted(s[0], rest);
      InsertByTime(s[0], rest)
  }

  lemma FilterConsKeep(h: Revision, t: seq<Revision>, p: Revision -> bool)
    requires p(h)
    ensures Filter([h] + t, p) == [h] + Filter(t, p)
  {
    assert ([h] + t)[0] == h && ([h] + t)[1..] == t;
  }

  lemma FilterConsSkip(h: Revision, t: seq<Revision>, p: Revision -> bool)
    requires !p(h)
    ensures Filter([h] + t, p) == Filter(t, p)
  {
    assert ([h] + t)[0] == h && ([h] + t)[1..] == t;
  }

  /** Replacing the tail of a non-empty list by one with the same filtered
      contents keeps the filtered contents of the whole list. */
  lemma FilterReplaceTail(l: seq<Revision>, a: seq<Revision>, p: Revision -> bool)
    requires l != [] && Filter(a, p) == Filter(l[1..], p)
    ensures Filter([l[0]] + a, p) == Filter(l, p)
  {
    if p(l[0]) {
      FilterConsKeep(l[0], a, p);
    } else {
      FilterConsSkip(l[0], a, p);
    }
  }

  /** Inserting `x` puts it in front of the revisions of its own time, which
      keep their order. */
  lemma {:induction false} InsertKeepsEqualTimeOrder(x: Revision, l: seq<Revision>)
    ensures Filter(InsertByTime(x, l), WithTime(x.time)) == [x] + Filter(l, WithTime(x.time))
  {
    var p := WithTime(x.time);
    assert p(x);
    if l == [] || l[0].time <= x.time {
      assert InsertByTime(x, l) == [x] + l;
      FilterConsKeep(x, l, p);
    } else {
      InsertKeepsEqualTimeOrder(x, l[1..]);
      var rest := InsertByTime(x, l[1..]);
      assert !p(l[0]);
      assert InsertByTime(x, l) == [l[0]] + rest;
      FilterConsSkip(l[0], rest, p);
      assert l == [l[0]] + l[1..];
      FilterConsSkip(l[0], l[1..], p);
    }
  }

  /** Inserting `x` leaves the revisions of every other time as they were. */
  lemma {:induction false} InsertKeepsOtherTimes(x: Revision, l: seq<Revision>, t: int)
    requires x.time != t
    ensures Filter(InsertByTime(x, l), WithTime(t)) == Filter(l, WithTime(t))
  {
    var p := WithTime(t);
    assert !p(x);
    if l == [] || l[0].time <= x.time {
      assert InsertByTime(x, l) == [x] + l;
      FilterConsSkip(x, l, p);
    } else {
      InsertKeepsOtherTimes(x, l[1..], t);
      var rest := InsertByTime(x, l[1..]);
      assert InsertByTime(x, l) == [l[0]] + rest;
      FilterReplaceTail(l, rest, p);
    }
  }

  /** The sort is stable: for every instant, the revisions with that time
      keep their relative order. */
  lemma {:induction false} SortIsStable(s: seq<Revision>, t: int)
    ensures Filter(SortByTimeDescending(s), WithTime(t)) == Filter(s, WithTime(t))
  {
    if s != [] {
      SortIsStable(s[1..], t);
      var rest := SortByTimeDescending(s[1..]);
      assert s == [s[0]] + s[1..];
      if s[0].time == t {
        InsertKeepsEqualTimeOrder(s[0], rest);
        FilterConsKeep(s[0], s[1..], WithTime(t));
      } else {
        InsertKeepsOtherTimes(s[0], rest, t);
        FilterConsSkip(s[0], s[1..], WithTime(t));
      }
    }
  }

  /** `x` is a revision of `s` whose time is the greatest among those not
      later than `t`, and no revision before it in `s` has the same time. */
  predicate IsLatestAtOrBefore(s: seq<Revision>, t: int, x: Revision) {
    && x.time <= t
    && (forall y :: y in s && y.time <= t ==> y.time <= x.time)
    && exists i :: 0 <= i < |s| && s[i] == x && forall j :: 0 <= j < i ==> s[j].time != x.time
  }

  /** `sortedByDescending { it.time }.firstOrNull { it.time <= t }`: the
      latest revision at or before `t` (the earliest-inserted one among
      those sharing that time), or none when every revision is later. */
  function LatestAtOrBefore(s: seq<Revision>, t: int): (r: Option<Revision>)
    ensures r.None? <==> forall y :: y in s ==> y.time > t
    ensures r.Some? ==> IsLatestAtOrBefore(s, t, r.value)
  {
    var sorted := SortByTimeDescending(s);
    var r := FindFirst(sorted, AtOrBefore(t));
    assert r.None? <==> forall y :: y in s ==> y.time > t by {
      assert forall y :: y in s <==> y in sorted by {
        forall y ensures y in s <==> y in sorted { assert y in multiset(s) <==> y in multiset(sorted); }
      }
      if r.None? {
        forall y | y in sorted ensures y.time > t { var i :| 0 <= i < |sorted| && sorted[i] == y; assert !AtOrBefore(t)(sorted[i]); }
      }
    }
    if r.Some? then
      LatestProperty(s, t, sorted, r.value);
      r
    else r
  }

  lemma LatestProperty(s: seq<Revision>, t: int, sorted: seq<Revision>, x: Revision)
    requires sorted == SortByTimeDescending(s)
    requires FindFirst(sorted, AtOrBefore(t)) == Some(x)
    ensures IsLatestAtOrBefore(s, t, x)
  {
    var i :| 0 <= i < |sorted| && sorted[i] == x && AtOrBefore(t)(sorted[i]) &&
      forall j :: 0 <= j < i ==> !AtOrBefore(t)(sorted[j]);
    assert forall j :: 0 <= j < i ==> sorted[j].time > t by {
      forall j | 0 <= j < i ensures sorted[j].time > t { assert !AtOrBefore(t)(sorted[j]); }
    }
    assert forall y :: y in s ==> y in sorted by {
      forall y | y in s ensures y in sorted { assert y in multiset(s); }
    }
    LatestIsMaximal(s, t, sorted, i);
    LatestIsEarliest(s, t, sorted, i);
  }

  lemma LatestIsMaximal(s: seq<Revision>, t: int, sorted: seq<Revision>, i: int)
    requires SortedByTimeDescending(sorted) && forall y :: y in s ==> y in sorted
    requires 0 <= i < |sorted| && sorted[i].time <= t
    requires forall j :: 0 <= j < i ==> sorted[j].time > t
    ensures forall y :: y in s && y.time <= t ==> y.time <= sorted[i].time
  {
    forall y | y in s && y.time <= t ensures y.time <= sorted[i].time {
      var m :| 0 <= m < |sorted| && sorted[m] == y;
      assert m >= i;
    }
  }

  lemma LatestIsEarliest(s: seq<Revision>, t: int, sorted: seq<Revision>, i: int)
    requires sorted == SortByTimeDescending(s)
    requires 0 <= i < |sorted| && sorted[i].time <= t
    requires forall j :: 0 <= j < i ==> sorted[j].time > t
    ensures exists k :: 0 <= k < |s| && s[k] == sorted[i] && forall j :: 0 <= j < k ==> s[j].time != sorted[i].time
  {
    var x := sorted[i];
    var p := WithTime(x.time);
    assert forall j :: 0 <= j < i ==> !p(sorted[j]);
    FindFirstAt(sorted, p, i);
    FilterHead(sorted, p);
    SortIsStable(s, x.time);
    FilterHead(s, p);
    assert FindFirst(s, p) == Some(x);
    var k :| 0 <= k < |s| && s[k] == x && p(s[k]) && forall j :: 0 <= j < k ==> !p(s[j]);
    assert forall j :: 0 <= j < k ==> s[j].time != x.time;
  }
}
