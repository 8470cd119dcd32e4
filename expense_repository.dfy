/** `ExpenseRepositoryImpl`: every local write marks the row for the next
    sync (inserts and updates DIRTY, deletes DELETED), deletes are soft, and
    the synchronous reads wrap the DAO's answer in a `Result`. */
module Repository {
  import opened Results
  import opened Entity
  import Queries
  import Dao

  /** The rewrite applied to every inserted row: DIRTY, not deleted, every
      other field as given. */
  function Dirty(e: ExpenseEnt): (r: ExpenseEnt)
    ensures r.syncState == DIRTY && r.deletedAt == None
    ensures r.(syncState := e.syncState, deletedAt := e.deletedAt) == e
  {
    e.(syncState := DIRTY, deletedAt := None)
  }

  function DirtyAll(es: seq<ExpenseEnt>): (r: seq<ExpenseEnt>)
    ensures |r| == |es|
    ensures forall i :: 0 <= i < |es| ==> r[i] == Dirty(es[i])
  {
    seq(|es|, i requires 0 <= i < |es| => Dirty(es[i]))
  }

  /** The rewrite applied to an updated row: DIRTY, `deletedAt` as supplied. */
  function Touched(e: ExpenseEnt): (r: ExpenseEnt)
    ensures r.syncState == DIRTY && r.deletedAt == e.deletedAt
    ensures r.(syncState := e.syncState) == e
  {
    e.(syncState := DIRTY)
  }

  class ExpenseRepositoryImpl {
    const expenseDao: Dao.ExpenseDao

    constructor(expenseDao: Dao.ExpenseDao)
      ensures this.expenseDao == expenseDao
    {
      this.expenseDao := expenseDao;
    }

    /** `insertExpense`. */
    method InsertExpense(expenseEnt: ExpenseEnt)
      requires expenseDao.Valid()
      modifies expenseDao
      ensures expenseDao.Valid()
      ensures expenseDao.State() == Dao.InsertReplace(old(expenseDao.State()), Dirty(expenseEnt))
    {
      var _ := expenseDao.InsertExpense(Dirty(expenseEnt));
    }

    /** `insertExpenseAll`; a primary-key conflict propagates and writes
        nothing. */
    method InsertExpenseAll(expenses: seq<ExpenseEnt>) returns (r: Call<()>)
      requires expenseDao.Valid()
      modifies expenseDao
      ensures expenseDao.Valid()
      ensures Dao.InsertAll(old(expenseDao.State()), DirtyAll(expenses)).Threw? ==>
                r == Threw(Dao.PrimaryKeyViolation) && expenseDao.State() == old(expenseDao.State())
      ensures Dao.InsertAll(old(expenseDao.State()), DirtyAll(expenses)).Returned? ==>
                r == Returned(()) &&
                expenseDao.State() == Dao.InsertAll(old(expenseDao.State()), DirtyAll(expenses)).value.0
    {
      var c := expenseDao.InsertExpenseAll(DirtyAll(expenses));
      r := if c.Returned? then Returned(()) else Threw(c.exception);
    }

    /** `updateExpense`. */
    method UpdateExpense(expenseEnt: ExpenseEnt)
      requires expenseDao.Valid()
      modifies expenseDao
      ensures expenseDao.Valid()
      ensures expenseDao.State() == Dao.Update(old(expenseDao.State()), Touched(expenseEnt))
    {
      var _ := expenseDao.UpdateExpense(Touched(expenseEnt));
    }

    /** `deleteExpense`: a soft delete of the row's id at `now`. */
    method DeleteExpense(expenseEnt: ExpenseEnt, now: int)
      requires expenseDao.Valid()
      modifies expenseDao
      ensures expenseDao.Valid()
      ensures expenseDao.State() == Dao.MarkDeleted(old(expenseDao.State()), {expenseEnt.expenseId}, now, DELETED)
    {
      expenseDao.MarkDeletedById(expenseEnt.expenseId, now, DELETED);
    }

    /** `deleteExpenseById`. */
    method DeleteExpenseById(id: int, now: int)
      requires expenseDao.Valid()
      modifies expenseDao
      ensures expenseDao.Valid()
      ensures expenseDao.State() == Dao.MarkDeleted(old(expenseDao.State()), {id}, now, DELETED)
    {
      expenseDao.MarkDeletedById(id, now, DELETED);
    }

    /** `deleteAllExpense`: all listed ids, one timestamp. */
    method DeleteAllExpense(list: seq<int>, now: int)
      requires expenseDao.Valid()
      modifies expenseDao
      ensures expenseDao.Valid()
      ensures expenseDao.State() == Dao.MarkDeleted(old(expenseDao.State()), (set i | i in list), now, DELETED)
    {
      expenseDao.MarkDeletedByIDs(list, now, DELETED);
    }

    /** `getExpenseTotalCountSync`; `failure` is the exception the DAO call
        throws, if it does. */
    method GetExpenseTotalCountSync(failure: Option<Exception>) returns (r: Result<int>)
      ensures failure.Some? ==> r == Error(failure.value)
      ensures failure.None? ==> r == Success(|expenseDao.rows|)
    {
      if failure.Some? {
        r := Error(failure.value);
      } else {
        r := Success(|expenseDao.rows|);
      }
    }

    /** `getMostRecentDateSync`: the earliest `modified_date`, or `now` on an
        empty table. */
    method GetMostRecentDateSync(now: int, failure: Option<Exception>) returns (r: Result<int>)
      ensures failure.Some? ==> r == Error(failure.value)
      ensures failure.None? && expenseDao.rows == [] ==> r == Success(now)
      ensures failure.None? && expenseDao.rows != [] ==>
                r.Success? &&
                (exists i :: 0 <= i < |expenseDao.rows| && expenseDao.rows[i].modifiedDate == r.data) &&
                (forall i :: 0 <= i < |expenseDao.rows| ==> r.data <= expenseDao.rows[i].modifiedDate)
    {
      if failure.Some? {
        r := Error(failure.value);
      } else {
        var date := Queries.MostRecentDate(expenseDao.rows);
        r := Success(date.GetOr(now));
      }
    }

    /** `getMostLatestDateSync`: the latest `modified_date`, or `now` on an
        empty table. */
    method GetMostLatestDateSync(now: int, failure: Option<Exception>) returns (r: Result<int>)
      ensures failure.Some? ==> r == Error(failure.value)
      ensures failure.None? && expenseDao.rows == [] ==> r == Success(now)
      ensures failure.None? && expenseDao.rows != [] ==>
                r.Success? &&
                (exists i :: 0 <= i < |expenseDao.rows| && expenseDao.rows[i].modifiedDate == r.data) &&
                (forall i :: 0 <= i < |expenseDao.rows| ==> expenseDao.rows[i].modifiedDate <= r.data)
    {
      if failure.Some? {
        r := Error(failure.value);
      } else {
        var date := Queries.MostLatestDate(expenseDao.rows);
        r := Success(date.GetOr(now));
      }
    }
  }

  // --------------------------------------------------------------- lemmas

  /** An inserted row is stored, with its assigned id, exactly as given
      except DIRTY and not deleted, and so the next sync pushes it. */
  lemma InsertedRowIsPending(s: Dao.Store, e: ExpenseEnt)
    requires Dao.Consistent(s)
    ensures var stored := e.(expenseId := Dao.AssignedId(s, e), syncState := DIRTY, deletedAt := None);
            stored in Dao.InsertReplace(s, Dirty(e)).rows && Dao.IsPending(stored)
  {
    Dao.InsertReplaceRows(s, Dirty(e));
    assert Dao.AssignedId(s, Dirty(e)) == Dao.AssignedId(s, e);
    assert Dirty(e).(expenseId := Dao.AssignedId(s, e)) ==
           e.(expenseId := Dao.AssignedId(s, e), syncState := DIRTY, deletedAt := None);
  }

  /** `insertExpenseAll` of new rows (id 0) always succeeds and appends
      them, all DIRTY, with consecutive fresh ids. */
  lemma InsertAllNewRows(s: Dao.Store, es: seq<ExpenseEnt>)
    requires Dao.Consistent(s)
    requires forall i :: 0 <= i < |es| ==> AsksForFreshId(es[i])
    ensures Dao.InsertAll(s, DirtyAll(es)).Returned?
    ensures var t := Dao.InsertAll(s, DirtyAll(es)).value.0;
            |t.rows| == |s.rows| + |es| && t.rows[..|s.rows|] == s.rows &&
            forall i :: 0 <= i < |es| ==> t.rows[|s.rows| + i] == Dirty(es[i]).(expenseId := s.nextId + i)
  {
    Dao.InsertAllFresh(s, DirtyAll(es), []);
    var n := Dao.Numbered(DirtyAll(es), s.nextId);
    Dao.NumberedAt(DirtyAll(es), s.nextId);
    assert (s.rows + n)[..|s.rows|] == s.rows;
    forall i | 0 <= i < |es| ensures (s.rows + n)[|s.rows| + i] == Dirty(es[i]).(expenseId := s.nextId + i) {
      assert (s.rows + n)[|s.rows| + i] == n[i];
    }
  }

  /** A delete is soft: the row stays in the table, and in the list the next
      sync pushes, stamped with `now` and DELETED; no other row changes. */
  lemma DeleteIsSoft(s: Dao.Store, id: int, now: int, i: int)
    requires 0 <= i < |s.rows| && s.rows[i].expenseId == id
    ensures var t := Dao.MarkDeleted(s, {id}, now, DELETED);
            |t.rows| == |s.rows| &&
            t.rows[i] == s.rows[i].(deletedAt := Some(now), syncState := DELETED) &&
            Dao.IsPending(t.rows[i]) &&
            forall j :: 0 <= j < |s.rows| && s.rows[j].expenseId != id ==> t.rows[j] == s.rows[j]
  {
  }

  /** `deleteAllExpense` stamps every listed row with one shared time. */
  lemma DeleteAllSharesTimestamp(s: Dao.Store, list: seq<int>, now: int)
    ensures var t := Dao.MarkDeleted(s, (set k | k in list), now, DELETED);
            forall i, j :: 0 <= i < |s.rows| && 0 <= j < |s.rows| && s.rows[i].expenseId in list && s.rows[j].expenseId in list ==>
              t.rows[i].deletedAt == t.rows[j].deletedAt == Some(now)
  {
  }
}
