/** The SELECT statements of `ExpenseDao` over the `expense` table, as
    filter, sort and LIMIT/OFFSET functions over the table's rows.
    SQL leaves the order of rows with equal `modified_date` open; the sorts
    here fix one such order and the contracts say only what SQL promises. */
module Queries {
  import opened Results
  import opened Entity

  predicate NonIncreasing(s: seq<ExpenseEnt>) {
    forall i, j :: 0 <= i < j < |s| ==> s[j].modifiedDate <= s[i].modifiedDate
  }

  predicate NonDecreasing(s: seq<ExpenseEnt>) {
    forall i, j :: 0 <= i < j < |s| ==> s[i].modifiedDate <= s[j].modifiedDate
  }

  // ---------------------------------------------------------------- WHERE

  /** `WHERE p`: the rows satisfying `p`, in table order. */
  function Where(s: seq<ExpenseEnt>, p: ExpenseEnt -> bool): (r: seq<ExpenseEnt>)
    ensures forall x :: multiset(r)[x] == if p(x) then multiset(s)[x] else 0
    ensures forall i :: 0 <= i < |r| ==> p(r[i])
    ensures |r| <= |s|
  {
    if s == [] then []
    else
      assert s == [s[0]] + s[1..];
      if p(s[0]) then [s[0]] + Where(s[1..], p) else Where(s[1..], p)
  }

  /** One step of the filter: the first row is kept exactly when it passes. */
  lemma WhereCons(s: seq<ExpenseEnt>, p: ExpenseEnt -> bool)
    requires s != []
    ensures Where(s, p) == if p(s[0]) then [s[0]] + Where(s[1..], p) else Where(s[1..], p)
  {
  }

  /** Filtering keeps the relative order: it distributes over concatenation. */
  lemma {:induction false} WhereConcat(a: seq<ExpenseEnt>, b: seq<ExpenseEnt>, p: ExpenseEnt -> bool)
    ensures Where(a + b, p) == Where(a, p) + Where(b, p)
  {
    if a == [] {
      assert a + b == b;
    } else {
      assert (a + b)[1..] == a[1..] + b;
      assert (a + b)[0] == a[0];
      WhereConcat(a[1..], b, p);
    }
  }

  // ------------------------------------------------------------- ORDER BY

  function InsertDesc(e: ExpenseEnt, s: seq<ExpenseEnt>): (r: seq<ExpenseEnt>)
    requires NonIncreasing(s)
    ensures NonIncreasing(r)
    ensures multiset(r) == multiset(s) + multiset{e}
    ensures |r| == |s| + 1
    ensures r[0] == e || (s != [] && r[0] == s[0])
  {
    if s == [] || s[0].modifiedDate <= e.modifiedDate then [e] + s
    else
      var t := InsertDesc(e, s[1..]);
      InsertDescStep(e, s, t);
      [s[0]] + t
  }

  /** Inserting behind the first row keeps the order, since the first row
      is newer than both `e` and the rest. */
  lemma InsertDescStep(e: ExpenseEnt, s: seq<ExpenseEnt>, t: seq<ExpenseEnt>)
    requires s != [] && NonIncreasing(s) && e.modifiedDate < s[0].modifiedDate
    requires NonIncreasing(t) && multiset(t) == multiset(s[1..]) + multiset{e} && |t| == |s|
    requires t[0] == e || (s[1..] != [] && t[0] == s[1..][0])
    ensures NonIncreasing([s[0]] + t)
    ensures multiset([s[0]] + t) == multiset(s) + multiset{e}
  {
    assert s == [s[0]] + s[1..];
    var r := [s[0]] + t;
    forall i, j | 0 <= i < j < |r| ensures r[j].modifiedDate <= r[i].modifiedDate {
      if i == 0 {
        assert r[j] == t[j - 1];
        assert t[j - 1].modifiedDate <= t[0].modifiedDate;
      } else {
        assert r[i] == t[i - 1] && r[j] == t[j - 1];
      }
    }
  }

  /** `ORDER BY modified_date DESC`. */
  function SortDesc(s: seq<ExpenseEnt>): (r: seq<ExpenseEnt>)
    ensures NonIncreasing(r)
    ensures multiset(r) == multiset(s)
    ensures |r| == |s|
  {
    if s == [] then []
    else
      assert s == [s[0]] + s[1..];
      InsertDesc(s[0], SortDesc(s[1..]))
  }

  function InsertAsc(e: ExpenseEnt, s: seq<ExpenseEnt>): (r: seq<ExpenseEnt>)
    requires NonDecreasing(s)
    ensures NonDecreasing(r)
    ensures multiset(r) == multiset(s) + multiset{e}
    ensures |r| == |s| + 1
    ensures r[0] == e || (s != [] && r[0] == s[0])
  {
    if s == [] || e.modifiedDate <= s[0].modifiedDate then [e] + s
    else
      var t := InsertAsc(e, s[1..]);
      InsertAscStep(e, s, t);
      [s[0]] + t
  }

  /** Inserting behind the first row keeps the order, since the first row
      is older than both `e` and the rest. */
  lemma InsertAscStep(e: ExpenseEnt, s: seq<ExpenseEnt>, t: seq<ExpenseEnt>)
    requires s != [] && NonDecreasing(s) && s[0].modifiedDate < e.modifiedDate
    requires NonDecreasing(t) && multiset(t) == multiset(s[1..]) + multiset{e} && |t| == |s|
    requires t[0] == e || (s[1..] != [] && t[0] == s[1..][0])
    ensures NonDecreasing([s[0]] + t)
    ensures multiset([s[0]] + t) == multiset(s) + multiset{e}
  {
    assert s == [s[0]] + s[1..];
    var r := [s[0]] + t;
    forall i, j | 0 <= i < j < |r| ensures r[i].modifiedDate <= r[j].modifiedDate {
      if i == 0 {
        assert r[j] == t[j - 1];
        assert t[0].modifiedDate <= t[j - 1].modifiedDate;
      } else {
        assert r[i] == t[i - 1] && r[j] == t[j - 1];
      }
    }
  }

  /** `ORDER BY modified_date ASC`. */
  function SortAsc(s: seq<ExpenseEnt>): (r: seq<ExpenseEnt>)
    ensures NonDecreasing(r)
    ensures multiset(r) == multiset(s)
    ensures |r| == |s|
  {
    if s == [] then []
    else
      assert s == [s[0]] + s[1..];
      InsertAsc(s[0], SortAsc(s[1..]))
  }

  // ------------------------------------------------------- LIMIT / OFFSET

  /** SQLite treats a negative OFFSET as 0. */
  function Skip(offset: int): nat {
    if offset < 0 then 0 else offset
  }

  /** `LIMIT limit OFFSET offset` as SQLite evaluates it: a negative LIMIT
      means no bound. */
  function Page(s: seq<ExpenseEnt>, offset: int, limit: int): (r: seq<ExpenseEnt>)
    ensures limit >= 0 ==> |r| <= limit
    ensures Skip(offset) + |r| <= |s| || r == []
    ensures forall i :: 0 <= i < |r| ==> r[i] == s[Skip(offset) + i]
    ensures Skip(offset) < |s| && (limit < 0 || Skip(offset) + limit >= |s|) ==> Skip(offset) + |r| == |s|
    ensures Skip(offset) < |s| && 0 <= limit && Skip(offset) + limit < |s| ==> |r| == limit
    ensures Skip(offset) >= |s| ==> r == []
    ensures multiset(r) <= multiset(s)
  {
    var k := Skip(offset);
    if k >= |s| then []
    else
      var n := if limit < 0 || k + limit >= |s| then |s| - k else limit;
      assert s == s[..k] + s[k..k + n] + s[k + n..];
      s[k..k + n]
  }

  // -------------------------------------------------------------- queries

  predicate InRange(e: ExpenseEnt, startTime: int, endTime: int) {
    startTime <= e.modifiedDate <= endTime
  }

  /** The filter of a range query. */
  function Within(startTime: int, endTime: int): ExpenseEnt -> bool {
    (e: ExpenseEnt) => InRange(e, startTime, endTime)
  }

  /** A page of a sorted filter result holds only rows that pass the filter,
      each at most as often as in the table. */
  lemma PageOfFiltered(rows: seq<ExpenseEnt>, p: ExpenseEnt -> bool, sorted: seq<ExpenseEnt>,
                       offset: int, limit: int)
    requires multiset(sorted) == multiset(Where(rows, p))
    ensures forall i :: 0 <= i < |Page(sorted, offset, limit)| ==> p(Page(sorted, offset, limit)[i])
    ensures multiset(Page(sorted, offset, limit)) <= multiset(rows)
  {
    var w := Where(rows, p);
    var r := Page(sorted, offset, limit);
    forall i | 0 <= i < |r| ensures p(r[i]) {
      assert r[i] in multiset(sorted);
      assert r[i] in multiset(w);
    }
    assert multiset(w) <= multiset(rows);
  }

  /** `getExpenseAll`, `getExpenseAllSync`, `getExpenseSourceAll`:
      every row, newest first. */
  function ExpenseAll(rows: seq<ExpenseEnt>): (r: seq<ExpenseEnt>)
    ensures NonIncreasing(r)
    ensures multiset(r) == multiset(rows)
  {
    SortDesc(rows)
  }

  /** `getExpenseRangeAsc` and `getExpenseRangeAscSource`. */
  function ExpenseRangeAsc(rows: seq<ExpenseEnt>, startTime: int, endTime: int,
                           offset: int, limit: int): (r: seq<ExpenseEnt>)
    ensures NonDecreasing(r)
    ensures forall i :: 0 <= i < |r| ==> InRange(r[i], startTime, endTime)
    ensures limit >= 0 ==> |r| <= limit
    ensures multiset(r) <= multiset(rows)
  {
    var matching := SortAsc(Where(rows, Within(startTime, endTime)));
    PageOfFiltered(rows, Within(startTime, endTime), matching, offset, limit);
    PageKeepsOrder(matching, offset, limit);
    Page(matching, offset, limit)
  }

  /** `getExpenseRangeDesc` and `getExpenseRangeDescSource`. */
  function ExpenseRangeDesc(rows: seq<ExpenseEnt>, startTime: int, endTime: int,
                            offset: int, limit: int): (r: seq<ExpenseEnt>)
    ensures NonIncreasing(r)
    ensures forall i :: 0 <= i < |r| ==> InRange(r[i], startTime, endTime)
    ensures limit >= 0 ==> |r| <= limit
    ensures multiset(r) <= multiset(rows)
  {
    var matching := SortDesc(Where(rows, Within(startTime, endTime)));
    PageOfFiltered(rows, Within(startTime, endTime), matching, offset, limit);
    PageKeepsOrder(matching, offset, limit);
    Page(matching, offset, limit)
  }

  /** `getExpenseRange(limit, offset)`: a page of all rows, newest first. */
  function ExpenseRange(rows: seq<ExpenseEnt>, limit: int, offset: int): (r: seq<ExpenseEnt>)
    ensures NonIncreasing(r)
    ensures limit >= 0 ==> |r| <= limit
    ensures multiset(r) <= multiset(rows)
  {
    var all := SortDesc(rows);
    PageKeepsOrder(all, offset, limit);
    Page(all, offset, limit)
  }

  /** The number of rows `getRecentExpense` returns. */
  const RECENT_LIMIT: int := 4

  /** `getRecentExpense` and `getRecentExpenseSync`: `LIMIT 4` of the rows
      newest first. */
  function RecentExpense(rows: seq<ExpenseEnt>): (r: seq<ExpenseEnt>)
    ensures NonIncreasing(r)
    ensures |r| == if |rows| < RECENT_LIMIT then |rows| else RECENT_LIMIT
    ensures multiset(r) <= multiset(rows)
  {
    var all := SortDesc(rows);
    PageKeepsOrder(all, 0, RECENT_LIMIT);
    Page(all, 0, RECENT_LIMIT)
  }

  /** `getWeekExpense` and `getWeekExpenseSync`: rows strictly after
      `startTime`, newest first. */
  function WeekExpense(rows: seq<ExpenseEnt>, startTime: int): (r: seq<ExpenseEnt>)
    ensures NonIncreasing(r)
    ensures forall x :: multiset(r)[x] == if x.modifiedDate > startTime then multiset(rows)[x] else 0
  {
    SortDesc(Where(rows, (e: ExpenseEnt) => e.modifiedDate > startTime))
  }

  /** `getMostRecentDateSync`: `ORDER BY modified_date ASC LIMIT 1`, which
      despite its name is the EARLIEST date; null on an empty table. */
  function MostRecentDate(rows: seq<ExpenseEnt>): (d: Option<int>)
    ensures d.None? <==> rows == []
    ensures d.Some? ==> exists i :: 0 <= i < |rows| && rows[i].modifiedDate == d.value
    ensures d.Some? ==> forall i :: 0 <= i < |rows| ==> d.value <= rows[i].modifiedDate
  {
    var sorted := SortAsc(rows);
    if sorted == [] then None
    else
      assert sorted[0] in multiset(rows);
      assert forall i :: 0 <= i < |rows| ==> rows[i] in multiset(sorted);
      Some(sorted[0].modifiedDate)
  }

  /** `getMostLatestDateSync`: `ORDER BY modified_date DESC LIMIT 1`, the
      latest date; null on an empty table. */
  function MostLatestDate(rows: seq<ExpenseEnt>): (d: Option<int>)
    ensures d.None? <==> rows == []
    ensures d.Some? ==> exists i :: 0 <= i < |rows| && rows[i].modifiedDate == d.value
    ensures d.Some? ==> forall i :: 0 <= i < |rows| ==> rows[i].modifiedDate <= d.value
  {
    var sorted := SortDesc(rows);
    if sorted == [] then None
    else
      assert sorted[0] in multiset(rows);
      assert forall i :: 0 <= i < |rows| ==> rows[i] in multiset(sorted);
      Some(sorted[0].modifiedDate)
  }

  // --------------------------------------------------------------- lemmas

  /** A page of a sorted sequence is sorted. */
  lemma PageKeepsOrder(s: seq<ExpenseEnt>, offset: int, limit: int)
    ensures NonIncreasing(s) ==> NonIncreasing(Page(s, offset, limit))
    ensures NonDecreasing(s) ==> NonDecreasing(Page(s, offset, limit))
  {
  }

  /** Without paging, the range queries return exactly the rows with
      `startTime <= modified_date <= endTime`: both ends are included. */
  lemma RangeIsInclusive(rows: seq<ExpenseEnt>, startTime: int, endTime: int, offset: int, limit: int)
    requires offset <= 0 && limit < 0
    ensures forall x :: multiset(ExpenseRangeAsc(rows, startTime, endTime, offset, limit))[x] ==
                        if startTime <= x.modifiedDate <= endTime then multiset(rows)[x] else 0
    ensures forall x :: multiset(ExpenseRangeDesc(rows, startTime, endTime, offset, limit))[x] ==
                        if startTime <= x.modifiedDate <= endTime then multiset(rows)[x] else 0
  {
    var p := Within(startTime, endTime);
    var asc := SortAsc(Where(rows, p));
    var desc := SortDesc(Where(rows, p));
    PageAll(asc, offset, limit);
    PageAll(desc, offset, limit);
  }

  lemma PageAll(s: seq<ExpenseEnt>, offset: int, limit: int)
    requires offset <= 0 && limit < 0
    ensures Page(s, offset, limit) == s
  {
  }

  /** A page skips `Skip(offset)` rows of the full ordered result and keeps
      the next ones. */
  lemma {:induction false} RangePageOfFull(rows: seq<ExpenseEnt>, startTime: int, endTime: int, offset: int, limit: int)
    ensures ExpenseRangeAsc(rows, startTime, endTime, offset, limit) ==
            Page(ExpenseRangeAsc(rows, startTime, endTime, 0, -1), offset, limit)
    ensures ExpenseRangeDesc(rows, startTime, endTime, offset, limit) ==
            Page(ExpenseRangeDesc(rows, startTime, endTime, 0, -1), offset, limit)
  {
    var p := Within(startTime, endTime);
    PageAll(SortAsc(Where(rows, p)), 0, -1);
    PageAll(SortDesc(Where(rows, p)), 0, -1);
  }

  /** The recent rows are the newest ones: every row left out is no newer
      than any row returned. */
  lemma RecentAreNewest(rows: seq<ExpenseEnt>)
    ensures forall e, x :: e in rows && e !in RecentExpense(rows) && x in RecentExpense(rows) ==>
                           e.modifiedDate <= x.modifiedDate
  {
    var all := SortDesc(rows);
    var r := RecentExpense(rows);
    assert r == all[..|r|];
    forall e, x | e in rows && e !in r && x in r
      ensures e.modifiedDate <= x.modifiedDate
    {
      assert e in multiset(all);
      var j :| 0 <= j < |all| && all[j] == e;
      var i :| 0 <= i < |r| && r[i] == x;
      assert j >= |r|;
    }
  }

  /** The week query keeps exactly the rows strictly after `startTime`: a row
      at `startTime` itself is excluded. */
  lemma WeekExcludesStart(rows: seq<ExpenseEnt>, startTime: int)
    ensures forall e :: e in WeekExpense(rows, startTime) <==> e in rows && e.modifiedDate > startTime
  {
    var r := WeekExpense(rows, startTime);
    forall e ensures e in r <==> e in rows && e.modifiedDate > startTime {
      assert e in r <==> multiset(r)[e] > 0;
      assert e in rows <==> multiset(rows)[e] > 0;
    }
  }
}
