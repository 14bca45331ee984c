/**
 * backend/internal/infrastructure/repository/postgres/statistics_repository.go:
 * the in-Go part of the focus trend — zero-filling the days of the period
 * that have no data, and the bubble sort by date string. The query's rows
 * are a parameter; `Format("2006-01-02")` of a day is the parameter
 * `dateString`. Go compares strings byte by byte, which for UTF-8 text is
 * the order of the code points, so `StrLess` compares characters.
 */
module StatisticsRepository {
  import opened Wrappers
  import opened GoErrors
  import opened InfraErrors
  import opened Statistics

  /** Go's `a < b` on strings: lexicographic, a proper prefix first. */
  predicate StrLess(a: string, b: string)
  {
    if |a| == 0 then |b| > 0
    else if |b| == 0 then false
    else if a[0] != b[0] then a[0] < b[0]
    else StrLess(a[1..], b[1..])
  }

  lemma {:induction false} StrLessIrreflexive(a: string)
    ensures !StrLess(a, a)
  {
    if |a| > 0 {
      StrLessIrreflexive(a[1..]);
    }
  }

  lemma {:induction false} StrLessTransitive(a: string, b: string, c: string)
    requires StrLess(a, b) && StrLess(b, c)
    ensures StrLess(a, c)
  {
    if |a| > 0 && |b| > 0 && |c| > 0 && a[0] == b[0] && b[0] == c[0] {
      StrLessTransitive(a[1..], b[1..], c[1..]);
    }
  }

  lemma {:induction false} StrLessTotal(a: string, b: string)
    requires a != b
    ensures StrLess(a, b) || StrLess(b, a)
  {
    if |a| > 0 && |b| > 0 && a[0] == b[0] {
      StrLessTotal(a[1..], b[1..]);
    }
  }

  lemma StrLessAsymmetric(a: string, b: string)
    requires StrLess(a, b)
    ensures !StrLess(b, a)
  {
    if StrLess(b, a) {
      StrLessTransitive(a, b, a);
      StrLessIrreflexive(a);
    }
  }

  /** The order the sort establishes: no item is after its successor. */
  predicate DateLe(x: FocusTrendItem, y: FocusTrendItem)
  {
    !StrLess(y.date, x.date)
  }

  lemma DateLeTransitive(x: FocusTrendItem, y: FocusTrendItem, z: FocusTrendItem)
    requires DateLe(x, y) && DateLe(y, z)
    ensures DateLe(x, z)
  {
    if StrLess(z.date, x.date) {
      if x.date == y.date {
      } else if y.date == z.date {
      } else {
        StrLessTotal(x.date, y.date);
        StrLessTotal(y.date, z.date);
        StrLessTransitive(z.date, x.date, y.date);
      }
    }
  }

  predicate SortedByDate(s: seq<FocusTrendItem>)
  {
    forall p, q :: 0 <= p < q < |s| ==> DateLe(s[p], s[q])
  }

  /** The items with a given date, in order: a sort is stable when it keeps every such subsequence. */
  function WithDate(s: seq<FocusTrendItem>, date: string): (r: seq<FocusTrendItem>)
    ensures |r| <= |s|
  {
    if s == [] then []
    else WithDate(s[..|s| - 1], date) + (if s[|s| - 1].date == date then [s[|s| - 1]] else [])
  }

  lemma {:induction false} WithDateConcat(s: seq<FocusTrendItem>, t: seq<FocusTrendItem>, date: string)
    ensures WithDate(s + t, date) == WithDate(s, date) + WithDate(t, date)
  {
    if t != [] {
      assert (s + t)[..|s + t| - 1] == s + t[..|t| - 1];
      WithDateConcat(s, t[..|t| - 1], date);
    } else {
      assert s + t == s;
    }
  }

  /** Exchanging the items at `j` and `j + 1`. */
  function SwapAt(s: seq<FocusTrendItem>, j: int): (r: seq<FocusTrendItem>)
    requires 0 <= j < |s| - 1
    ensures |r| == |s| && r[j] == s[j + 1] && r[j + 1] == s[j]
    ensures forall i :: 0 <= i < |s| && i != j && i != j + 1 ==> r[i] == s[i]
  {
    s[..j] + [s[j + 1], s[j]] + s[j + 2..]
  }

  /**
   * For every date, the same items of that date in the same order. This
   * makes the two sequences hold the same items (`StableIsPermutation`).
   */
  ghost predicate StablePermutation(s: seq<FocusTrendItem>, t: seq<FocusTrendItem>)
  {
    forall date :: WithDate(s, date) == WithDate(t, date)
  }

  lemma StablePermutationTransitive(s: seq<FocusTrendItem>, t: seq<FocusTrendItem>, u: seq<FocusTrendItem>)
    requires StablePermutation(s, t) && StablePermutation(t, u)
    ensures StablePermutation(s, u)
  {
  }

  /** An item occurs as often in a sequence as among the items of its own date. */
  lemma {:induction false} CountWithinDate(s: seq<FocusTrendItem>, x: FocusTrendItem)
    ensures multiset(s)[x] == multiset(WithDate(s, x.date))[x]
  {
    if s != [] {
      var init, last := s[..|s| - 1], s[|s| - 1];
      CountWithinDate(init, x);
      assert s == init + [last];
    }
  }

  /** A stable rearrangement keeps the items: the same multiset. */
  lemma StableIsPermutation(s: seq<FocusTrendItem>, t: seq<FocusTrendItem>)
    requires StablePermutation(s, t)
    ensures multiset(s) == multiset(t)
  {
    forall x
      ensures multiset(s)[x] == multiset(t)[x]
    {
      CountWithinDate(s, x);
      CountWithinDate(t, x);
    }
  }

  /** Exchanging two neighbours with different dates keeps the order among items of each date. */
  lemma SwapKeepsDateOrder(s: seq<FocusTrendItem>, j: int, date: string)
    requires 0 <= j < |s| - 1 && s[j].date != s[j + 1].date
    ensures WithDate(SwapAt(s, j), date) == WithDate(s, date)
  {
    var pre, x, y, post := s[..j], s[j], s[j + 1], s[j + 2..];
    assert s == pre + [x, y] + post;
    assert WithDate([x, y], date) == WithDate([y, x], date) by {
      assert [x, y][..1] == [x] && [y, x][..1] == [y];
      assert [x][..0] == [] && [y][..0] == [];
    }
    WithDateConcat(pre + [x, y], post, date);
    WithDateConcat(pre, [x, y], date);
    WithDateConcat(pre + [y, x], post, date);
    WithDateConcat(pre, [y, x], date);
  }

  lemma SwapIsStable(s: seq<FocusTrendItem>, j: int)
    requires 0 <= j < |s| - 1 && s[j].date != s[j + 1].date
    ensures StablePermutation(SwapAt(s, j), s)
  {
    forall date
      ensures WithDate(SwapAt(s, j), date) == WithDate(s, date)
    {
      SwapKeepsDateOrder(s, j, date);
    }
  }

  method SwapNeighbours(a: array<FocusTrendItem>, j: int)
    requires 0 <= j < a.Length - 1
    modifies a
    ensures a[..] == SwapAt(old(a[..]), j)
  {
    a[j], a[j + 1] := a[j + 1], a[j];
  }

  /** Every item before `k` is at most every item from `k` on. */
  predicate Partitioned(s: seq<FocusTrendItem>, k: int)
  {
    forall p, q :: 0 <= p < k <= q < |s| ==> DateLe(s[p], s[q])
  }

  /** No item up to `j` is after the one at `j`. */
  predicate MaxAt(s: seq<FocusTrendItem>, j: int)
  {
    forall p :: 0 <= p <= j < |s| ==> DateLe(s[p], s[j])
  }

  /**
   * The items from `k` on are in order and none before `k` is after them:
   * every pair whose later position is at least `k` is in date order.
   */
  predicate SortedFrom(s: seq<FocusTrendItem>, k: int)
  {
    0 <= k <= |s| && forall p, q :: 0 <= p < q < |s| && k <= q ==> DateLe(s[p], s[q])
  }

  /** After a pass over the first `m` items, the sorted part grows by one. */
  lemma PassExtends(s: seq<FocusTrendItem>, m: int)
    requires 1 <= m <= |s|
    requires SortedFrom(s, m) && MaxAt(s, m - 1)
    ensures SortedFrom(s, m - 1)
  {
  }

  /** A pass that keeps the items from `m` on and the partition at `m` keeps the sorted part. */
  lemma SuffixKept(s: seq<FocusTrendItem>, t: seq<FocusTrendItem>, m: int)
    requires 0 <= m <= |s| == |t|
    requires SortedFrom(t, m) && Partitioned(s, m) && s[m..] == t[m..]
    ensures SortedFrom(s, m)
  {
    forall p, q | 0 <= p < q < |s| && m <= q
      ensures DateLe(s[p], s[q])
    {
      assert s[q] == s[m..][q - m] == t[q];
      if m <= p {
        assert s[p] == s[m..][p - m] == t[p];
      }
    }
  }

  lemma SortedWhole(s: seq<FocusTrendItem>, k: int)
    requires 0 <= k <= 1
    requires SortedFrom(s, k)
    ensures SortedByDate(s)
  {
  }

  /** An exchange in the pass keeps the pass's invariant and moves the greatest item one place up. */
  lemma SwapStep(s: seq<FocusTrendItem>, j: int, m: int)
    requires 0 <= j < m - 1 && m <= |s|
    requires Partitioned(s, m) && MaxAt(s, j) && StrLess(s[j + 1].date, s[j].date)
    ensures StablePermutation(SwapAt(s, j), s)
    ensures SwapAt(s, j)[m..] == s[m..]
    ensures Partitioned(SwapAt(s, j), m) && MaxAt(SwapAt(s, j), j + 1)
  {
    var t := SwapAt(s, j);
    StrLessIrreflexive(s[j].date);
    StrLessAsymmetric(s[j + 1].date, s[j].date);
    SwapIsStable(s, j);
    assert t[m..] == s[m..];
    forall p, q | 0 <= p < m <= q < |t|
      ensures DateLe(t[p], t[q])
    {
      if p == j {
        assert DateLe(s[j + 1], s[q]);
      } else if p == j + 1 {
        assert DateLe(s[j], s[q]);
      } else {
        assert DateLe(s[p], s[q]);
      }
    }
    forall p | 0 <= p <= j + 1
      ensures DateLe(t[p], t[j + 1])
    {
      if p < j {
        assert DateLe(s[p], s[j]);
      }
    }
  }

  /** Without an exchange the greatest item so far is already at `j + 1`. */
  lemma KeepStep(s: seq<FocusTrendItem>, j: int)
    requires 0 <= j < |s| - 1
    requires MaxAt(s, j) && !StrLess(s[j + 1].date, s[j].date)
    ensures MaxAt(s, j + 1)
  {
    forall p | 0 <= p <= j + 1
      ensures DateLe(s[p], s[j + 1])
    {
      if p <= j {
        DateLeTransitive(s[p], s[j], s[j + 1]);
      } else {
        StrLessIrreflexive(s[p].date);
      }
    }
  }

  /**
   * One pass of the inner loop over the first `m` items: it leaves the
   * greatest of them at `m - 1`, touches nothing from `m` on, and keeps the
   * first `m` items at most the rest.
   */
  method BubblePass(a: array<FocusTrendItem>, m: int)
    requires 1 <= m <= a.Length
    requires SortedFrom(a[..], m)
    modifies a
    ensures StablePermutation(a[..], old(a[..]))
    ensures a[m..] == old(a[m..])
    ensures MaxAt(a[..], m - 1)
    ensures SortedFrom(a[..], m - 1)
  {
    StrLessIrreflexive(a[0].date);
    var j := 0;
    while j < m - 1
      invariant 0 <= j <= m - 1
      invariant StablePermutation(a[..], old(a[..]))
      invariant a[m..] == old(a[m..])
      invariant Partitioned(a[..], m)
      invariant MaxAt(a[..], j)
    {
      if StrLess(a[j + 1].date, a[j].date) {
        ghost var before := a[..];
        SwapStep(before, j, m);
        SwapNeighbours(a, j);
        StablePermutationTransitive(a[..], before, old(a[..]));
      } else {
        KeepStep(a[..], j);
      }
      j := j + 1;
    }
    SuffixKept(a[..], old(a[..]), m);
    PassExtends(a[..], m);
  }

  /**
   * `sortByDate`: the bubble sort, in place. Afterwards the items are in
   * date order, are a permutation of the input, and items with the same
   * date keep their order (only neighbours with strictly greater dates are
   * exchanged).
   */
  method SortByDate(a: array<FocusTrendItem>)
    modifies a
    ensures SortedByDate(a[..])
    ensures multiset(a[..]) == multiset(old(a[..]))
    ensures forall date :: WithDate(a[..], date) == WithDate(old(a[..]), date)
  {
    ghost var items := a[..];
    var n := a.Length;
    var i := 0;
    while i < n - 1
      invariant 0 <= i <= if n == 0 then 0 else n - 1
      invariant StablePermutation(a[..], items)
      invariant SortedFrom(a[..], n - i)
    {
      ghost var before := a[..];
      BubblePass(a, n - i);
      StablePermutationTransitive(a[..], before, items);
      i := i + 1;
    }
    SortedWhole(a[..], n - i);
    StableIsPermutation(a[..], items);
  }

  /** The dates present in a list of items (the `dateMap` of the source). */
  function DatesOf(s: seq<FocusTrendItem>): set<string>
  {
    set i | 0 <= i < |s| :: s[i].date
  }

  /** The day after the last one the fill loop visits. */
  function StopDay(p: StatisticsPeriod): (d: int)
    ensures d >= p.startDate.day
  {
    var stop := if p.startDate.nanos <= p.endDate.nanos then p.endDate.day + 1 else p.endDate.day;
    if stop < p.startDate.day then p.startDate.day else stop
  }

  /** The zero items for the days in [lo, hi) whose date string is not in `dates`, in day order. */
  function MissingDays(dates: set<string>, lo: int, hi: int, dateString: int -> string): (r: seq<FocusTrendItem>)
    decreases hi - lo
    ensures |r| <= if hi < lo then 0 else hi - lo
  {
    if hi <= lo then []
    else MissingDays(dates, lo, hi - 1, dateString)
         + (if dateString(hi - 1) in dates then [] else [FocusTrendItem(dateString(hi - 1), 0.0)])
  }

  /** What the fill adds: one zero item per visited day whose date is absent, and nothing else. */
  lemma {:induction false} MissingDaysMeaning(dates: set<string>, lo: int, hi: int, dateString: int -> string)
    decreases hi - lo
    ensures forall x :: x in MissingDays(dates, lo, hi, dateString) ==>
              x.focusScore == 0.0 && x.date !in dates && exists d :: lo <= d < hi && x.date == dateString(d)
    ensures forall d :: lo <= d < hi && dateString(d) !in dates ==>
              FocusTrendItem(dateString(d), 0.0) in MissingDays(dates, lo, hi, dateString)
    ensures dates == {} && lo <= hi ==> |MissingDays(dates, lo, hi, dateString)| == hi - lo
  {
    if hi > lo {
      MissingDaysMeaning(dates, lo, hi - 1, dateString);
    }
  }

  /** What `fillMissingDates` sorts: the input, then the zero items for the absent days. */
  function Unsorted(items: seq<FocusTrendItem>, p: StatisticsPeriod, dateString: int -> string): seq<FocusTrendItem>
  {
    items + MissingDays(DatesOf(items), p.startDate.day, StopDay(p), dateString)
  }

  /** After the fill every visited day has an item, and the input items are all still there. */
  lemma FillCoversPeriod(items: seq<FocusTrendItem>, p: StatisticsPeriod, dateString: int -> string)
    ensures forall d :: p.startDate.day <= d < StopDay(p) ==> dateString(d) in DatesOf(Unsorted(items, p, dateString))
    ensures multiset(items) <= multiset(Unsorted(items, p, dateString))
    ensures |Unsorted(items, p, dateString)| <= |items| + (StopDay(p) - p.startDate.day)
    ensures WholeDays(p) && p.startDate.day <= p.endDate.day ==> StopDay(p) - p.startDate.day == DayCount(p)
  {
    var u := Unsorted(items, p, dateString);
    var missing := MissingDays(DatesOf(items), p.startDate.day, StopDay(p), dateString);
    MissingDaysMeaning(DatesOf(items), p.startDate.day, StopDay(p), dateString);
    forall d | p.startDate.day <= d < StopDay(p)
      ensures dateString(d) in DatesOf(u)
    {
      if dateString(d) in DatesOf(items) {
        var i :| 0 <= i < |items| && items[i].date == dateString(d);
        assert u[i] == items[i];
      } else {
        var x := FocusTrendItem(dateString(d), 0.0);
        assert x in missing;
        var k :| 0 <= k < |missing| && missing[k] == x;
        assert u[|items| + k] == x;
      }
    }
  }

  /** The `dateMap` loop: the set of dates present. */
  method CollectDates(items: seq<FocusTrendItem>) returns (dateMap: set<string>)
    ensures dateMap == DatesOf(items)
  {
    dateMap := {};
    for i := 0 to |items|
      invariant dateMap == DatesOf(items[..i])
    {
      dateMap := dateMap + {items[i].date};
    }
    assert items[..|items|] == items;
  }

  /** The day loop: from the start, one day at a time while not after the end. */
  method AppendMissing(items: seq<FocusTrendItem>, dateMap: set<string>, p: StatisticsPeriod, dateString: int -> string)
    returns (filled: seq<FocusTrendItem>)
    ensures filled == items + MissingDays(dateMap, p.startDate.day, StopDay(p), dateString)
  {
    filled := items;
    var d := p.startDate;
    while !After(d, p.endDate)
      invariant d.nanos == p.startDate.nanos && p.startDate.day <= d.day <= StopDay(p)
      invariant filled == items + MissingDays(dateMap, p.startDate.day, d.day, dateString)
      decreases p.endDate.day - d.day
    {
      var dateStr := dateString(d.day);
      if dateStr !in dateMap {
        filled := filled + [FocusTrendItem(dateStr, 0.0)];
      }
      d := Instant(d.day + 1, d.nanos);
    }
  }

  /**
   * `fillMissingDates`: collects the dates present, appends a zero item for
   * each day of the period without one, and sorts the whole by date.
   */
  method FillMissingDates(items: seq<FocusTrendItem>, p: StatisticsPeriod, dateString: int -> string)
    returns (result: seq<FocusTrendItem>)
    ensures SortedByDate(result)
    ensures multiset(result) == multiset(Unsorted(items, p, dateString))
    ensures forall date :: WithDate(result, date) == WithDate(Unsorted(items, p, dateString), date)
  {
    var dateMap := CollectDates(items);
    var filled := AppendMissing(items, dateMap, p, dateString);
    var a := new FocusTrendItem[|filled|](i requires 0 <= i < |filled| => filled[i]);
    assert a[..] == filled;
    SortByDate(a);
    result := a[..];
  }

  /**
   * `GetFocusTrend`: a failed query is a database query error; otherwise the
   * rows, zero-filled and sorted.
   */
  method GetFocusTrend(rows: Result<seq<FocusTrendItem>, Error>, p: StatisticsPeriod, dateString: int -> string)
    returns (r: Result<seq<FocusTrendItem>, Error>)
    ensures rows.Failure? ==> r == Failure(NewDatabaseQueryError(Some(rows.error)))
    ensures rows.Ok? ==> r.Ok? && SortedByDate(r.value)
                         && multiset(r.value) == multiset(Unsorted(rows.value, p, dateString))
    ensures rows.Ok? ==> forall d :: p.startDate.day <= d < StopDay(p) ==> dateString(d) in DatesOf(r.value)
  {
    if rows.Failure? {
      return Failure(NewDatabaseQueryError(Some(rows.error)));
    }
    var filled := FillMissingDates(rows.value, p, dateString);
    FillCoversPeriod(rows.value, p, dateString);
    forall d | p.startDate.day <= d < StopDay(p)
      ensures dateString(d) in DatesOf(filled)
    {
      var u := Unsorted(rows.value, p, dateString);
      var i :| 0 <= i < |u| && u[i].date == dateString(d);
      assert u[i] in multiset(filled);
      var k :| 0 <= k < |filled| && filled[k] == u[i];
    }
    r := Ok(filled);
  }
}
