/** The row of the local `expense` table (`ExpenseEnt`), its defaults and
    the three sync-state constants. */
module Entity {
  import opened Results

  /** A money amount, kept as the integer the table stores. */
  datatype Amount = Amount(store: int)

  /** `Amount.createFromStore`. */
  function CreateFromStore(v: int): Amount {
    Amount(v)
  }

  /** `Amount.getStore`. */
  function GetStore(a: Amount): int {
    a.store
  }

  lemma StoreRoundTrip(v: int, a: Amount)
    ensures GetStore(CreateFromStore(v)) == v
    ensures CreateFromStore(GetStore(a)) == a
  {
  }

  /** The sync states of a row. */
  const SYNCED: int := 0
  const DIRTY: int := 1
  const DELETED: int := 2

  lemma SyncStatesDistinct()
    ensures SYNCED != DIRTY && DIRTY != DELETED && SYNCED != DELETED
  {
  }

  /** The row; `expenseId` 0 asks the table to assign a fresh id. */
  datatype ExpenseEnt = ExpenseEnt(
    expenseId: int,
    remoteId: Option<string>,
    name: Option<string>,
    amount: Amount,
    category: int,
    note: Option<string>,
    createdDate: int,
    modifiedDate: int,
    deletedAt: Option<int>,
    syncState: int)

  /** A row built with the constructor's defaults for `expenseId`,
      `remoteId`, `deletedAt` and `syncState`. */
  function NewExpenseEnt(name: Option<string>, amount: Amount, category: int,
                         note: Option<string>, createdDate: int, modifiedDate: int): (e: ExpenseEnt)
    ensures e.expenseId == 0 && e.remoteId == None && e.deletedAt == None
    ensures e.syncState == SYNCED
    ensures e.name == name && e.amount == amount && e.category == category && e.note == note
    ensures e.createdDate == createdDate && e.modifiedDate == modifiedDate
  {
    ExpenseEnt(0, None, name, amount, category, note, createdDate, modifiedDate, None, SYNCED)
  }

  /** Room's `autoGenerate = true`: an id of 0 means "not set". */
  predicate AsksForFreshId(e: ExpenseEnt) {
    e.expenseId == 0
  }

  lemma DefaultRowAsksForFreshId(name: Option<string>, amount: Amount, category: int,
                                 note: Option<string>, createdDate: int, modifiedDate: int)
    ensures AsksForFreshId(NewExpenseEnt(name, amount, category, note, createdDate, modifiedDate))
  {
  }
}
