/** The `expense` table behind `ExpenseDao`: its writes, the reads the
    repositories use, and the DAO methods the callers use whose declarations
    are not part of this model (their meaning is taken from the call sites).
    Each write is first a function on a `Store` value; the class's methods
    are proved to change the table exactly as that function says. */
module Dao {
  import opened Results
  import opened Entity
  import Queries

  /** The table as a value: its rows in rowid (`expense_id`) order, the order
      SQLite scans them, and the id AUTOINCREMENT hands out next (Room's
      `autoGenerate = true` declares the key AUTOINCREMENT, so an id is
      never reused, not even after the row is gone). */
  datatype Store = Store(rows: seq<ExpenseEnt>, nextId: int)

  predicate IdsIncreasing(rows: seq<ExpenseEnt>) {
    forall i, j :: 0 <= i < j < |rows| ==> rows[i].expenseId < rows[j].expenseId
  }

  /** Rows are in id order (so each id is there once) and below `nextId`. */
  predicate Consistent(s: Store) {
    IdsIncreasing(s.rows) && forall i :: 0 <= i < |s.rows| ==> s.rows[i].expenseId < s.nextId
  }

  predicate HasId(rows: seq<ExpenseEnt>, id: int) {
    exists i :: 0 <= i < |rows| && rows[i].expenseId == id
  }

  function Max(a: int, b: int): int {
    if a < b then b else a
  }

  /** The id an insert gives its row: a fresh one when the row asks for it. */
  function AssignedId(s: Store, e: ExpenseEnt): int {
    if AsksForFreshId(e) then s.nextId else e.expenseId
  }

  /** A row that still has to be pushed to the server (`getPendingSync` is
      taken to select `sync_state != SYNCED`). */
  predicate IsPending(e: ExpenseEnt) {
    e.syncState != SYNCED
  }

  // ------------------------------------------------------------- inserts

  /** What `Put` promises of its result `r` on a table in id order. */
  ghost predicate PutResult(rows: seq<ExpenseEnt>, e: ExpenseEnt, r: seq<ExpenseEnt>) {
    IdsIncreasing(rows) ==>
      && IdsIncreasing(r)
      && (forall x :: x in r <==> x == e || (x in rows && x.expenseId != e.expenseId))
      && |r| == if HasId(rows, e.expenseId) then |rows| else |rows| + 1
  }

  /** Stores `e` at its place in id order, replacing a row with the same id. */
  function Put(rows: seq<ExpenseEnt>, e: ExpenseEnt): (r: seq<ExpenseEnt>)
    ensures IdsIncreasing(rows) ==> IdsIncreasing(r)
    ensures IdsIncreasing(rows) ==>
              forall x :: x in r <==> x == e || (x in rows && x.expenseId != e.expenseId)
    ensures IdsIncreasing(rows) ==> |r| == if HasId(rows, e.expenseId) then |rows| else |rows| + 1
  {
    if rows == [] then [e]
    else if e.expenseId < rows[0].expenseId then
      PutFront(rows, e);
      [e] + rows
    else if e.expenseId == rows[0].expenseId then
      PutOverHead(rows, e);
      [e] + rows[1..]
    else
      var rest := Put(rows[1..], e);
      PutBehindHead(rows, e, rest);
      [rows[0]] + rest
  }

  lemma PutFront(rows: seq<ExpenseEnt>, e: ExpenseEnt)
    requires rows != [] && e.expenseId < rows[0].expenseId
    ensures PutResult(rows, e, [e] + rows)
  {
    if IdsIncreasing(rows) {
      forall i | 0 <= i < |rows| ensures e.expenseId < rows[i].expenseId {
        if i > 0 {
          assert rows[0].expenseId < rows[i].expenseId;
        }
      }
      assert forall x :: x in rows ==> x.expenseId != e.expenseId;
    }
  }

  lemma PutOverHead(rows: seq<ExpenseEnt>, e: ExpenseEnt)
    requires rows != [] && e.expenseId == rows[0].expenseId
    ensures PutResult(rows, e, [e] + rows[1..])
  {
    if IdsIncreasing(rows) {
      assert rows == [rows[0]] + rows[1..];
      forall x | x in rows[1..] ensures x.expenseId != e.expenseId {
        var i :| 0 <= i < |rows[1..]| && rows[1..][i] == x;
        assert rows[0].expenseId < rows[i + 1].expenseId;
      }
      assert HasId(rows, e.expenseId);
    }
  }

  lemma PutBehindHead(rows: seq<ExpenseEnt>, e: ExpenseEnt, rest: seq<ExpenseEnt>)
    requires rows != [] && rows[0].expenseId < e.expenseId
    requires PutResult(rows[1..], e, rest)
    ensures PutResult(rows, e, [rows[0]] + rest)
  {
    if IdsIncreasing(rows) {
      assert rows == [rows[0]] + rows[1..];
      assert IdsIncreasing(rows[1..]);
      HasIdBehindHead(rows, e.expenseId);
      RestAboveHead(rows, e, rest);
    }
  }

  lemma HasIdBehindHead(rows: seq<ExpenseEnt>, id: int)
    requires rows != [] && rows[0].expenseId < id
    ensures HasId(rows, id) <==> HasId(rows[1..], id)
  {
    if HasId(rows, id) {
      var i :| 0 <= i < |rows| && rows[i].expenseId == id;
      assert rows[1..][i - 1].expenseId == id;
    }
    if HasId(rows[1..], id) {
      var i :| 0 <= i < |rows[1..]| && rows[1..][i].expenseId == id;
      assert rows[i + 1].expenseId == id;
    }
  }

  lemma RestAboveHead(rows: seq<ExpenseEnt>, e: ExpenseEnt, rest: seq<ExpenseEnt>)
    requires rows != [] && rows[0].expenseId < e.expenseId && IdsIncreasing(rows)
    requires forall x :: x in rest ==> x == e || x in rows[1..]
    ensures forall k :: 0 <= k < |rest| ==> rows[0].expenseId < rest[k].expenseId
  {
    forall k | 0 <= k < |rest| ensures rows[0].expenseId < rest[k].expenseId {
      assert rest[k] in rest;
      if rest[k] != e {
        var i :| 0 <= i < |rows[1..]| && rows[1..][i] == rest[k];
        assert rows[0].expenseId < rows[i + 1].expenseId;
      }
    }
  }

  /** A row whose id exceeds every id in the table goes at the end. */
  lemma {:induction false} PutAfterAll(rows: seq<ExpenseEnt>, e: ExpenseEnt)
    requires forall i :: 0 <= i < |rows| ==> rows[i].expenseId < e.expenseId
    ensures Put(rows, e) == rows + [e]
  {
    if rows != [] {
      PutAfterAll(rows[1..], e);
      assert rows == [rows[0]] + rows[1..];
    }
  }

  /** `@Insert(onConflict = REPLACE) insertExpense`: the row is stored under
      its assigned id, replacing any row already there. */
  function InsertReplace(s: Store, e: ExpenseEnt): (t: Store)
    ensures Consistent(s) ==> Consistent(t)
    ensures AsksForFreshId(e) ==> t.nextId == s.nextId + 1
    ensures s.nextId <= t.nextId
  {
    var id := AssignedId(s, e);
    var t := Store(Put(s.rows, e.(expenseId := id)), Max(s.nextId, id + 1));
    if Consistent(s) then
      assert forall i :: 0 <= i < |t.rows| ==> t.rows[i].expenseId < t.nextId by {
        forall i | 0 <= i < |t.rows| ensures t.rows[i].expenseId < t.nextId {
          assert t.rows[i] in t.rows;
          if t.rows[i] != e.(expenseId := id) {
            var j :| 0 <= j < |s.rows| && s.rows[j] == t.rows[i];
          }
        }
      }
      t
    else t
  }

  /** The rows after `InsertReplace`: the row under its assigned id, and
      every other row whose id differs; a row asking for a fresh id is
      appended. */
  lemma InsertReplaceRows(s: Store, e: ExpenseEnt)
    requires Consistent(s)
    ensures forall x :: x in InsertReplace(s, e).rows <==>
              x == e.(expenseId := AssignedId(s, e)) || (x in s.rows && x.expenseId != AssignedId(s, e))
    ensures AsksForFreshId(e) ==> InsertReplace(s, e).rows == s.rows + [e.(expenseId := s.nextId)]
  {
    if AsksForFreshId(e) {
      PutAfterAll(s.rows, e.(expenseId := s.nextId));
    }
  }

  /** Inserting `e` without REPLACE violates the primary key. */
  predicate Conflicts(s: Store, e: ExpenseEnt) {
    !AsksForFreshId(e) && HasId(s.rows, e.expenseId)
  }

  /** The exception SQLite raises for a duplicate primary key. */
  const PrimaryKeyViolation: Exception := Failure("UNIQUE constraint failed: expense.expense_id")

  /** `@Insert insertExpenseAll` (default strategy ABORT): the rows are
      inserted one after the other and the first primary-key conflict
      throws; the call being one transaction, a throw leaves the table as it
      was. `ids` are the ids assigned so far. */
  function InsertAllFrom(s: Store, es: seq<ExpenseEnt>, ids: seq<int>): Call<(Store, seq<int>)>
    decreases |es|
  {
    if es == [] then Returned((s, ids))
    else if Conflicts(s, es[0]) then Threw(PrimaryKeyViolation)
    else InsertAllFrom(InsertReplace(s, es[0]), es[1..], ids + [AssignedId(s, es[0])])
  }

  function InsertAll(s: Store, es: seq<ExpenseEnt>): Call<(Store, seq<int>)> {
    InsertAllFrom(s, es, [])
  }

  /** `es` stored under the ids `from`, `from + 1`, ... */
  function Numbered(es: seq<ExpenseEnt>, from: int): (r: seq<ExpenseEnt>)
    ensures |r| == |es|
  {
    if es == [] then [] else [es[0].(expenseId := from)] + Numbered(es[1..], from + 1)
  }

  /** The i-th numbered row is the i-th row under id `from + i`. */
  lemma {:induction false} NumberedAt(es: seq<ExpenseEnt>, from: int)
    ensures forall i :: 0 <= i < |es| ==> Numbered(es, from)[i] == es[i].(expenseId := from + i)
    decreases |es|
  {
    if es != [] {
      NumberedAt(es[1..], from + 1);
      forall i | 0 <= i < |es| ensures Numbered(es, from)[i] == es[i].(expenseId := from + i) {
        if i > 0 {
          assert Numbered(es, from)[i] == Numbered(es[1..], from + 1)[i - 1];
          assert es[1..][i - 1] == es[i];
        }
      }
    }
  }

  /** The ids `from`, ..., `from + n - 1`. */
  function IdRange(from: int, n: nat): (r: seq<int>)
    ensures |r| == n
    decreases n
  {
    if n == 0 then [] else [from] + IdRange(from + 1, n - 1)
  }

  lemma NumberedCons(es: seq<ExpenseEnt>, from: int)
    requires es != []
    ensures Numbered(es, from) == [es[0].(expenseId := from)] + Numbered(es[1..], from + 1)
  {
  }

  /** Appending `from`, then the ids after it, is appending the range. */
  lemma IdsAppend(ids: seq<int>, from: int, n: nat)
    requires n > 0
    ensures ids + [from] + IdRange(from + 1, n - 1) == ids + IdRange(from, n)
  {
    assert IdRange(from, n) == [from] + IdRange(from + 1, n - 1);
    Associative(ids, [from], IdRange(from + 1, n - 1));
  }

  lemma Associative<T>(a: seq<T>, b: seq<T>, c: seq<T>)
    ensures a + b + c == a + (b + c)
  {
  }

  /** A row asking for a fresh id does not conflict and is appended under
      `nextId`. */
  lemma InsertFreshStep(s: Store, e: ExpenseEnt)
    requires Consistent(s) && AsksForFreshId(e)
    ensures !Conflicts(s, e) && AssignedId(s, e) == s.nextId
    ensures InsertReplace(s, e) == Store(s.rows + [e.(expenseId := s.nextId)], s.nextId + 1)
    ensures Consistent(InsertReplace(s, e))
  {
    InsertReplaceRows(s, e);
  }

  /** One step of `InsertAllFrom` on a row asking for a fresh id. */
  lemma InsertAllFromFreshStep(s: Store, es: seq<ExpenseEnt>, ids: seq<int>)
    requires Consistent(s) && es != [] && AsksForFreshId(es[0])
    ensures Consistent(Store(s.rows + [es[0].(expenseId := s.nextId)], s.nextId + 1))
    ensures InsertAllFrom(s, es, ids) ==
              InsertAllFrom(Store(s.rows + [es[0].(expenseId := s.nextId)], s.nextId + 1), es[1..], ids + [s.nextId])
  {
    InsertFreshStep(s, es[0]);
  }

  /** Rows that all ask for fresh ids never conflict: they are appended with
      the ids `nextId`, `nextId + 1`, ... in list order. */
  lemma {:induction false} InsertAllFresh(s: Store, es: seq<ExpenseEnt>, ids: seq<int>)
    requires Consistent(s)
    requires forall i :: 0 <= i < |es| ==> AsksForFreshId(es[i])
    ensures InsertAllFrom(s, es, ids).Returned?
    ensures InsertAllFrom(s, es, ids).value.0 == Store(s.rows + Numbered(es, s.nextId), s.nextId + |es|)
    ensures InsertAllFrom(s, es, ids).value.1 == ids + IdRange(s.nextId, |es|)
    decreases |es|
  {
    if es == [] {
      assert s.rows + Numbered(es, s.nextId) == s.rows;
      assert ids + IdRange(s.nextId, |es|) == ids;
    } else {
      var n := s.nextId;
      var head := es[0].(expenseId := n);
      var tail := es[1..];
      var s1 := Store(s.rows + [head], n + 1);
      var ids1 := ids + [n];
      InsertAllFromFreshStep(s, es, ids);
      forall i | 0 <= i < |tail| ensures AsksForFreshId(tail[i]) {
        assert tail[i] == es[i + 1];
      }
      InsertAllFresh(s1, tail, ids1);
      FreshTotals(s, es, ids);
      IdsAppend(ids, n, |es|);
    }
  }

  /** Appending the first row, then the rest numbered from the next id, is
      appending all of them numbered from `nextId`. */
  lemma FreshTotals(s: Store, es: seq<ExpenseEnt>, ids: seq<int>)
    requires es != []
    ensures s.rows + [es[0].(expenseId := s.nextId)] + Numbered(es[1..], s.nextId + 1) == s.rows + Numbered(es, s.nextId)
  {
    var h := es[0].(expenseId := s.nextId);
    var r := Numbered(es[1..], s.nextId + 1);
    NumberedCons(es, s.nextId);
    Associative(s.rows, [h], r);
  }

  // -------------------------------------------------- updates and deletes

  /** `@Update updateExpense`: overwrites the row with the same id; a row
      that is not in the table changes nothing. */
  function Update(s: Store, e: ExpenseEnt): (t: Store)
    ensures |t.rows| == |s.rows| && t.nextId == s.nextId
    ensures forall i :: 0 <= i < |s.rows| && s.rows[i].expenseId == e.expenseId ==> t.rows[i] == e
    ensures forall i :: 0 <= i < |s.rows| && s.rows[i].expenseId != e.expenseId ==> t.rows[i] == s.rows[i]
  {
    Store(seq(|s.rows|, i requires 0 <= i < |s.rows| =>
                if s.rows[i].expenseId == e.expenseId then e else s.rows[i]),
          s.nextId)
  }

  /** Filtering keeps the table's id order. */
  lemma {:induction false} WhereKeepsIdOrder(rows: seq<ExpenseEnt>, p: ExpenseEnt -> bool)
    requires IdsIncreasing(rows)
    ensures IdsIncreasing(Queries.Where(rows, p))
  {
    if rows != [] {
      WhereKeepsIdOrder(rows[1..], p);
      var rest := Queries.Where(rows[1..], p);
      forall k | 0 <= k < |rest| ensures rows[0].expenseId < rest[k].expenseId {
        assert rest[k] in multiset(rest);
        assert rest[k] in multiset(rows[1..]);
        var j :| 0 <= j < |rows[1..]| && rows[1..][j] == rest[k];
        assert rows[j + 1] == rest[k];
      }
    }
  }

  /** The filter of a delete: rows whose id is not listed. */
  function Keeps(ids: set<int>): ExpenseEnt -> bool {
    (x: ExpenseEnt) => x.expenseId !in ids
  }

  /** `deleteExpense`, `deleteExpenseRowById`, `deleteExpenseByIDs`: exactly
      the rows with the listed ids are removed. */
  function DeleteIds(s: Store, ids: set<int>): (t: Store)
    ensures forall x :: x in t.rows <==> x in s.rows && x.expenseId !in ids
    ensures t.nextId == s.nextId
    ensures Consistent(s) ==> Consistent(t)
  {
    var t := Store(Queries.Where(s.rows, Keeps(ids)), s.nextId);
    assert forall x :: x in t.rows <==> x in s.rows && x.expenseId !in ids by {
      forall x ensures x in t.rows <==> x in s.rows && x.expenseId !in ids {
        assert x in t.rows <==> x in multiset(t.rows);
        assert x in s.rows <==> x in multiset(s.rows);
      }
    }
    if Consistent(s) then
      WhereKeepsIdOrder(s.rows, Keeps(ids));
      assert forall i :: 0 <= i < |t.rows| ==> t.rows[i].expenseId < t.nextId by {
        forall i | 0 <= i < |t.rows| ensures t.rows[i].expenseId < t.nextId {
          assert t.rows[i] in t.rows;
        }
      }
      t
    else t
  }

  lemma HasIdTail(rows: seq<ExpenseEnt>, id: int)
    requires rows != [] && rows[0].expenseId != id
    ensures HasId(rows, id) <==> HasId(rows[1..], id)
  {
    if HasId(rows, id) {
      var i :| 0 <= i < |rows| && rows[i].expenseId == id;
      assert rows[1..][i - 1].expenseId == id;
    }
    if HasId(rows[1..], id) {
      var i :| 0 <= i < |rows[1..]| && rows[1..][i].expenseId == id;
      assert rows[i + 1].expenseId == id;
    }
  }

  /** With ids unique, deleting one id removes one row when the id is in
      the table and none otherwise. */
  lemma {:induction false} DeleteOneCount(rows: seq<ExpenseEnt>, id: int)
    requires IdsIncreasing(rows)
    ensures |Queries.Where(rows, Keeps({id}))| == if HasId(rows, id) then |rows| - 1 else |rows|
  {
    if rows != [] {
      var rest := rows[1..];
      assert rows == [rows[0]] + rest;
      assert IdsIncreasing(rest);
      if rows[0].expenseId == id {
        assert !HasId(rest, id) by {
          forall j | 0 <= j < |rest| ensures rest[j].expenseId != id {
            assert rest[j] == rows[j + 1];
          }
        }
        WhereNone(rest, id);
        assert Queries.Where(rows, Keeps({id})) == rest;
      } else {
        DeleteOneCount(rest, id);
        HasIdTail(rows, id);
        assert Queries.Where(rows, Keeps({id})) == [rows[0]] + Queries.Where(rest, Keeps({id}));
      }
    }
  }

  /** Deleting an id that is not there removes nothing. */
  lemma {:induction false} WhereNone(rows: seq<ExpenseEnt>, id: int)
    requires !HasId(rows, id)
    ensures Queries.Where(rows, Keeps({id})) == rows
  {
    if rows != [] {
      HasIdTail(rows, id);
      WhereNone(rows[1..], id);
      assert rows == [rows[0]] + rows[1..];
    }
  }

  /** `markDeletedById` / `markDeletedByIDs` (declarations not part of this
      model): `UPDATE expense SET deleted_at = at, sync_state = state WHERE
      expense_id IN ids`. */
  function MarkDeleted(s: Store, ids: set<int>, at: int, state: int): (t: Store)
    ensures |t.rows| == |s.rows| && t.nextId == s.nextId
    ensures forall i :: 0 <= i < |s.rows| && s.rows[i].expenseId in ids ==>
              t.rows[i] == s.rows[i].(deletedAt := Some(at), syncState := state)
    ensures forall i :: 0 <= i < |s.rows| && s.rows[i].expenseId !in ids ==> t.rows[i] == s.rows[i]
  {
    Store(seq(|s.rows|, i requires 0 <= i < |s.rows| =>
                if s.rows[i].expenseId in ids then s.rows[i].(deletedAt := Some(at), syncState := state)
                else s.rows[i]),
          s.nextId)
  }

  /** `updateSyncState(id, state)` (declaration not part of this model). */
  function SetSyncState(s: Store, id: int, state: int): (t: Store)
    ensures |t.rows| == |s.rows| && t.nextId == s.nextId
    ensures forall i :: 0 <= i < |s.rows| && s.rows[i].expenseId == id ==> t.rows[i] == s.rows[i].(syncState := state)
    ensures forall i :: 0 <= i < |s.rows| && s.rows[i].expenseId != id ==> t.rows[i] == s.rows[i]
  {
    Store(seq(|s.rows|, i requires 0 <= i < |s.rows| =>
                if s.rows[i].expenseId == id then s.rows[i].(syncState := state) else s.rows[i]),
          s.nextId)
  }

  /** `updateRemoteIdAndSyncState(id, remoteId, state)` (declaration not
      part of this model). */
  function SetRemoteIdAndSyncState(s: Store, id: int, remoteId: string, state: int): (t: Store)
    ensures |t.rows| == |s.rows| && t.nextId == s.nextId
    ensures forall i :: 0 <= i < |s.rows| && s.rows[i].expenseId == id ==>
              t.rows[i] == s.rows[i].(remoteId := Some(remoteId), syncState := state)
    ensures forall i :: 0 <= i < |s.rows| && s.rows[i].expenseId != id ==> t.rows[i] == s.rows[i]
  {
    Store(seq(|s.rows|, i requires 0 <= i < |s.rows| =>
                if s.rows[i].expenseId == id then s.rows[i].(remoteId := Some(remoteId), syncState := state)
                else s.rows[i]),
          s.nextId)
  }

  /** `clearAll` (declaration not part of this model): `DELETE FROM
      expense`; AUTOINCREMENT's counter survives it. */
  function ClearAll(s: Store): (t: Store)
    ensures t.rows == [] && t.nextId == s.nextId
  {
    Store([], s.nextId)
  }

  /** Two tables with the same ids at the same places. */
  predicate SameIds(s: Store, t: Store) {
    |s.rows| == |t.rows| && s.nextId == t.nextId &&
    forall i :: 0 <= i < |s.rows| ==> s.rows[i].expenseId == t.rows[i].expenseId
  }

  /** The in-place writes never move, add or drop a row: ids and the row
      count stay. */
  lemma InPlaceWritesKeepIds(s: Store, e: ExpenseEnt, ids: set<int>, at: int, state: int, id: int, rid: string)
    ensures SameIds(s, Update(s, e))
    ensures SameIds(s, MarkDeleted(s, ids, at, state))
    ensures SameIds(s, SetSyncState(s, id, state))
    ensures SameIds(s, SetRemoteIdAndSyncState(s, id, rid, state))
  {
  }

  /** ... and so the table stays consistent. */
  lemma SameIdsKeepConsistency(s: Store, t: Store)
    requires Consistent(s) && SameIds(s, t)
    ensures Consistent(t)
  {
  }

  /** A soft delete removes nothing: the row count is unchanged and every
      marked row is still returned by `getExpenseAll`. */
  lemma SoftDeleteKeepsRows(s: Store, ids: set<int>, at: int, state: int, i: int)
    requires 0 <= i < |s.rows| && s.rows[i].expenseId in ids
    ensures |MarkDeleted(s, ids, at, state).rows| == |s.rows|
    ensures s.rows[i].(deletedAt := Some(at), syncState := state) in
              Queries.ExpenseAll(MarkDeleted(s, ids, at, state).rows)
  {
    var t := MarkDeleted(s, ids, at, state);
    assert t.rows[i] in multiset(t.rows);
  }

  // ------------------------------------------------------------- lookups

  predicate HasRemoteId(e: ExpenseEnt, remoteId: string) {
    e.remoteId == Some(remoteId)
  }

  /** `getByRemoteId` (declaration not part of this model): the first row
      of a table scan with that remote id, which is the one with the least
      `expense_id`. */
  function FirstWithRemoteId(rows: seq<ExpenseEnt>, remoteId: string): (r: Option<ExpenseEnt>)
    ensures r.None? <==> forall i :: 0 <= i < |rows| ==> !HasRemoteId(rows[i], remoteId)
    ensures r.Some? ==> r.value in rows && HasRemoteId(r.value, remoteId)
    ensures r.Some? && IdsIncreasing(rows) ==>
              forall i :: 0 <= i < |rows| && HasRemoteId(rows[i], remoteId) ==> r.value.expenseId <= rows[i].expenseId
  {
    if rows == [] then None
    else if HasRemoteId(rows[0], remoteId) then Some(rows[0])
    else
      var r := FirstWithRemoteId(rows[1..], remoteId);
      assert forall i :: 1 <= i < |rows| ==> rows[i] == rows[1..][i - 1];
      r
  }

  /** A failed `insertExpenseAll` fails with the primary-key violation. */
  lemma {:induction false} ThrowIsPrimaryKey(s: Store, es: seq<ExpenseEnt>, ids: seq<int>)
    requires InsertAllFrom(s, es, ids).Threw?
    ensures InsertAllFrom(s, es, ids) == Threw(PrimaryKeyViolation)
    decreases |es|
  {
    if !Conflicts(s, es[0]) {
      ThrowIsPrimaryKey(InsertReplace(s, es[0]), es[1..], ids + [AssignedId(s, es[0])]);
    }
  }

  lemma {:induction false} InsertAllKeepsConsistency(s: Store, es: seq<ExpenseEnt>, ids: seq<int>)
    requires Consistent(s)
    ensures InsertAllFrom(s, es, ids).Returned? ==> Consistent(InsertAllFrom(s, es, ids).value.0)
    decreases |es|
  {
    if es != [] && !Conflicts(s, es[0]) {
      InsertAllKeepsConsistency(InsertReplace(s, es[0]), es[1..], ids + [AssignedId(s, es[0])]);
    }
  }

  /** The rows still to push: every row not SYNCED, in table order and so
      each once. */
  function PendingRows(rows: seq<ExpenseEnt>): (p: seq<ExpenseEnt>)
    ensures forall x :: x in p <==> x in rows && IsPending(x)
    ensures IdsIncreasing(rows) ==> IdsIncreasing(p)
  {
    var p := Queries.Where(rows, IsPending);
    assert forall x :: x in p <==> x in rows && IsPending(x) by {
      forall x ensures x in p <==> x in rows && IsPending(x) {
        assert x in p <==> x in multiset(p);
        assert x in rows <==> x in multiset(rows);
      }
    }
    if IdsIncreasing(rows) then WhereKeepsIdOrder(rows, IsPending); p else p
  }

  // --------------------------------------------------------------- class

  /** The `expense` table behind `ExpenseDao`. */
  class ExpenseDao {
    var rows: seq<ExpenseEnt>
    var nextId: int

    function State(): Store
      reads this
    {
      Store(rows, nextId)
    }

    ghost predicate Valid()
      reads this
    {
      Consistent(State())
    }

    /** A new, empty table. */
    constructor()
      ensures Valid() && rows == [] && nextId == 1
    {
      rows := [];
      nextId := 1;
    }

    /** `insertExpense`; returns the row's id. */
    method InsertExpense(e: ExpenseEnt) returns (id: int)
      requires Valid()
      modifies this
      ensures Valid()
      ensures id == AssignedId(old(State()), e)
      ensures State() == InsertReplace(old(State()), e)
    {
      id := AssignedId(State(), e);
      var t := InsertReplace(State(), e);
      rows, nextId := t.rows, t.nextId;
    }

    /** `insertExpenseAll`: all rows or, on a conflict, none. */
    method InsertExpenseAll(es: seq<ExpenseEnt>) returns (r: Call<seq<int>>)
      requires Valid()
      modifies this
      ensures Valid()
      ensures InsertAll(old(State()), es).Threw? ==>
                r == Threw(PrimaryKeyViolation) && State() == old(State())
      ensures InsertAll(old(State()), es).Returned? ==>
                r == Returned(InsertAll(old(State()), es).value.1) &&
                State() == InsertAll(old(State()), es).value.0
    {
      InsertAllKeepsConsistency(State(), es, []);
      var c := InsertAll(State(), es);
      if c.Returned? {
        rows, nextId := c.value.0.rows, c.value.0.nextId;
        r := Returned(c.value.1);
      } else {
        ThrowIsPrimaryKey(State(), es, []);
        r := Threw(PrimaryKeyViolation);
      }
    }

    /** `updateExpense`; returns the number of rows written. */
    method UpdateExpense(e: ExpenseEnt) returns (n: int)
      requires Valid()
      modifies this
      ensures Valid()
      ensures State() == Update(old(State()), e)
      ensures n == if HasId(old(rows), e.expenseId) then 1 else 0
    {
      n := if HasId(rows, e.expenseId) then 1 else 0;
      var t := Update(State(), e);
      InPlaceWritesKeepIds(State(), e, {}, 0, 0, 0, "");
      SameIdsKeepConsistency(State(), t);
      rows := t.rows;
    }

    /** `deleteExpense`: a hard delete by primary key. */
    method DeleteExpense(e: ExpenseEnt) returns (n: int)
      requires Valid()
      modifies this
      ensures Valid()
      ensures State() == DeleteIds(old(State()), {e.expenseId})
      ensures n == if HasId(old(rows), e.expenseId) then 1 else 0
    {
      n := DeleteExpenseRowById(e.expenseId);
    }

    /** `deleteExpenseRowById`; returns the number of rows removed. */
    method DeleteExpenseRowById(id: int) returns (n: int)
      requires Valid()
      modifies this
      ensures Valid()
      ensures State() == DeleteIds(old(State()), {id})
      ensures n == if HasId(old(rows), id) then 1 else 0
    {
      var t := DeleteIds(State(), {id});
      DeleteOneCount(rows, id);
      n := |rows| - |t.rows|;
      rows := t.rows;
    }

    /** `deleteExpenseByIDs`; returns the number of rows removed. */
    method DeleteExpenseByIDs(ids: seq<int>) returns (n: int)
      requires Valid()
      modifies this
      ensures Valid()
      ensures State() == DeleteIds(old(State()), set i | i in ids)
      ensures n == |old(rows)| - |rows|
    {
      var t := DeleteIds(State(), set i | i in ids);
      n := |rows| - |t.rows|;
      rows := t.rows;
    }

    method MarkDeletedById(id: int, at: int, state: int)
      requires Valid()
      modifies this
      ensures Valid()
      ensures State() == MarkDeleted(old(State()), {id}, at, state)
    {
      var t := MarkDeleted(State(), {id}, at, state);
      SameIdsKeepConsistency(State(), t);
      rows := t.rows;
    }

    method MarkDeletedByIDs(ids: seq<int>, at: int, state: int)
      requires Valid()
      modifies this
      ensures Valid()
      ensures State() == MarkDeleted(old(State()), (set i | i in ids), at, state)
    {
      var t := MarkDeleted(State(), (set i | i in ids), at, state);
      SameIdsKeepConsistency(State(), t);
      rows := t.rows;
    }

    method UpdateSyncState(id: int, state: int)
      requires Valid()
      modifies this
      ensures Valid()
      ensures State() == SetSyncState(old(State()), id, state)
    {
      var t := SetSyncState(State(), id, state);
      SameIdsKeepConsistency(State(), t);
      rows := t.rows;
    }

    method UpdateRemoteIdAndSyncState(id: int, remoteId: string, state: int)
      requires Valid()
      modifies this
      ensures Valid()
      ensures State() == SetRemoteIdAndSyncState(old(State()), id, remoteId, state)
    {
      var t := SetRemoteIdAndSyncState(State(), id, remoteId, state);
      SameIdsKeepConsistency(State(), t);
      rows := t.rows;
    }

    method ClearAllRows()
      requires Valid()
      modifies this
      ensures Valid()
      ensures State() == ClearAll(old(State()))
    {
      rows := [];
    }

    /** `getItemExpense(id)`. */
    function GetItemExpense(id: int): (r: Option<ExpenseEnt>)
      reads this
      ensures r.Some? <==> HasId(rows, id)
      ensures r.Some? ==> r.value in rows && r.value.expenseId == id
    {
      var matching := Queries.Where(rows, (x: ExpenseEnt) => x.expenseId == id);
      assert HasId(rows, id) ==> matching != [] by {
        if HasId(rows, id) {
          var i :| 0 <= i < |rows| && rows[i].expenseId == id;
          assert rows[i] in multiset(rows);
          assert rows[i] in multiset(matching);
        }
      }
      if matching == [] then None
      else
        assert matching[0] in multiset(matching);
        assert matching[0] in multiset(rows);
        Some(matching[0])
    }

    /** `getPendingSync` (declaration not part of this model). */
    function GetPendingSync(): (p: seq<ExpenseEnt>)
      reads this
      ensures p == PendingRows(rows)
    {
      PendingRows(rows)
    }

    /** `getByRemoteId` (declaration not part of this model). */
    function GetByRemoteId(remoteId: string): (r: Option<ExpenseEnt>)
      reads this
      ensures r == FirstWithRemoteId(rows, remoteId)
    {
      FirstWithRemoteId(rows, remoteId)
    }
  }
}
