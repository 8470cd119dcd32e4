/** `LocalDataRepository.clearAll`: empties the backup table and the
    expense table. */
module LocalData {
  import Dao

  /** The backup table, of which only the number of rows is kept here. */
  class BackupDao {
    var rowCount: nat

    constructor()
      ensures rowCount == 0
    {
      rowCount := 0;
    }

    /** `clearAll` on the backup table. */
    method ClearAll()
      modifies this
      ensures rowCount == 0
    {
      rowCount := 0;
    }
  }

  class LocalDataRepository {
    const expenseDao: Dao.ExpenseDao
    const backupDao: BackupDao

    constructor(expenseDao: Dao.ExpenseDao, backupDao: BackupDao)
      ensures this.expenseDao == expenseDao && this.backupDao == backupDao
    {
      this.expenseDao := expenseDao;
      this.backupDao := backupDao;
    }

    /** Both tables become empty; the AUTOINCREMENT counter stays. */
    method ClearAll()
      requires expenseDao.Valid()
      modifies expenseDao, backupDao
      ensures expenseDao.Valid()
      ensures expenseDao.State() == Dao.ClearAll(old(expenseDao.State()))
      ensures backupDao.rowCount == 0
    {
      backupDao.ClearAll();
      expenseDao.ClearAllRows();
    }
  }
}
