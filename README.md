# ProExpense core, modelled in Dafny

ProExpense is an Android expense tracker. This project models its core:

- The local `expense` table (`ExpenseEnt`, `ExpenseDao`) with the sync
  states SYNCED, DIRTY and DELETED, and the SQL semantics of its queries.
- The write paths of `ExpenseRepositoryImpl`. Inserts and updates mark a row
  DIRTY. Deletes are soft: they stamp `deletedAt` and mark the row DELETED.
- The reconciliation in `SupabaseSyncRepository`. It has a one-shot download
  into an empty table, and a two-way sync that pushes pending rows and then
  pulls a remote snapshot, upserting by remote id.
- The sign-in state machine of `LoginViewModel`.
- The amount-input pattern that `FloatingInputFilterTest` pins down.
- The small rules around these parts:
  - the weekly per-day spending rates (`ExpenseRateCalculatorImpl`);
  - the income/outcome split and delete prepare/confirm (`HomeViewModel`);
  - the cached currency lookup (`CurrencyRepositoryImpl`);
  - the force-upgrade state (`MainViewModel`);
  - the update-required rule (`ProExpenseServerRepositoryImpl`);
  - the connection-error classification (`SupabaseStatusRepository`);
  - the 30-day re-auth, drawer, add-button and sign-out rules of
    `MainActivity`.

Stateful objects are Dafny classes. A mutated list is a `seq` field, and the
sync loops are `while` loops. Each method's `ensures` ties the new state to a
pure function of the old state. The lemmas beside those functions state
what the app promises.

Everything outside the device enters as a parameter rather than being
called:

- the Supabase server is a reply per push request, plus the fetched snapshot;
- the signed-in user's id and the profile name;
- the remote config;
- the clock (`now`);
- the day-of-week of a timestamp.

`Amount` is an opaque integer in store units, with `createFromStore` and
`getStore` as inverse maps.

Modules:

| module | file | models |
|---|---|---|
| `Results` | results.dfy | `Result`, `Option`, a call that returns or throws |
| `Text` | text.dfy | Kotlin `isBlank`, `orEmpty` and `contains(ignoreCase = true)` |
| `KotlinMath` | kotlin_math.dfy | truncating division and `Double.toInt` saturation |
| `Entity` | expense_ent.dfy | `ExpenseEnt`, its defaults and sync states |
| `Queries` | expense_queries.dfy | the SELECT statements of `ExpenseDao` |
| `Dao` | expense_dao.dfy | the writes of `ExpenseDao` and the class `ExpenseDao` |
| `Settings` | settings.dfy | the settings record used by sign-in, sync and re-auth |
| `LocalData` | local_data.dfy | `LocalDataRepository.clearAll` |
| `Repository` | expense_repository.dfy | `ExpenseRepositoryImpl` |
| `Sync` | sync_repository.dfy | `SupabaseSyncRepository` |
| `Login` | login_view_model.dfy | `LoginViewModel` |
| `AmountInput` | amount_input.dfy | the amount pattern of `FloatingInputFilterTest` |
| `RateCalculator` | rate_calculator.dfy | `ExpenseRateCalculatorImpl` |
| `Home` | home_view_model.dfy | `HomeViewModel` |
| `Currency` | currency_repository.dfy | `CurrencyRepositoryImpl` |
| `Main` | main_view_model.dfy | `MainViewModel` |
| `Server` | server_repository.dfy | `ProExpenseServerRepositoryImpl` |
| `Status` | status_repository.dfy | `SupabaseStatusRepository` |
| `Activity` | main_activity.dfy | the rules of `MainActivity` |

Some DAO methods are called but have no declaration in `ExpenseDao.kt`:

- `markDeletedById` and `markDeletedByIDs`;
- `getPendingSync`;
- `updateSyncState` and `updateRemoteIdAndSyncState`;
- `getByRemoteId`;
- `clearAll`.

The specifications given to them are assumptions drawn from their names and
call sites:

- `getPendingSync` lists every row that is not SYNCED, in table order.
- `getByRemoteId` gives the first row in table order with that remote id.
- The update methods write only the row with that id.
- `clearAll` empties the table.

## Model

| member | source | states |
|---|---|---|
| Entity.StoreRoundTrip | app/src/main/java/com/arduia/expense/data/remote/supabase/SupabaseSyncRepository.kt:58 | `createFromStore` and `getStore` are inverse, in both directions |
| Entity.SyncStatesDistinct | app/src/main/java/com/arduia/expense/data/local/ExpenseEnt.kt:41-46 | SYNCED, DIRTY and DELETED are three different states |
| Entity.NewExpenseEnt | app/src/main/java/com/arduia/expense/data/local/ExpenseEnt.kt:7-40 | a row built with the defaults has id 0, no remote id, no `deletedAt`, state SYNCED, and every other field as given |
| Entity.DefaultRowAsksForFreshId | app/src/main/java/com/arduia/expense/data/local/ExpenseEnt.kt:9-11 | the default id 0 of the auto-generated key means the table assigns a fresh id |
| Queries.Where | app/src/main/java/com/arduia/expense/data/local/ExpenseDao.kt:26-36 | a WHERE keeps exactly the rows that satisfy the condition, each as often as in the table; it never returns more rows than the table has |
| Queries.WhereConcat | app/src/main/java/com/arduia/expense/data/local/ExpenseDao.kt:77-81 | filtering keeps table order: it distributes over concatenation |
| Queries.SortDesc | app/src/main/java/com/arduia/expense/data/local/ExpenseDao.kt:17-24 | `ORDER BY modified_date DESC` is non-increasing and a permutation of its input |
| Queries.SortAsc | app/src/main/java/com/arduia/expense/data/local/ExpenseDao.kt:26-27 | `ORDER BY modified_date ASC` is non-decreasing and a permutation of its input |
| Queries.Page | app/src/main/java/com/arduia/expense/data/local/ExpenseDao.kt:62-63 | `LIMIT/OFFSET` as SQLite evaluates them. The page starts after `max(offset, 0)` rows, holds at most `limit` rows, and runs to the end exactly when the limit is negative or reaches past the end. The rows are the input's rows at consecutive positions. |
| Queries.ExpenseAll | app/src/main/java/com/arduia/expense/data/local/ExpenseDao.kt:17-24 | `getExpenseAll` and its variants return every row of the table, newest first |
| Queries.ExpenseRangeAsc | app/src/main/java/com/arduia/expense/data/local/ExpenseDao.kt:26-33 | only rows with `startTime <= modified_date <= endTime`, oldest first, at most `limit` rows |
| Queries.ExpenseRangeDesc | app/src/main/java/com/arduia/expense/data/local/ExpenseDao.kt:29-36 | only rows inside the inclusive range, newest first, at most `limit` rows |
| Queries.ExpenseRange | app/src/main/java/com/arduia/expense/data/local/ExpenseDao.kt:62-63 | a page of all rows, newest first, at most `limit` rows |
| Queries.RecentExpense | app/src/main/java/com/arduia/expense/data/local/ExpenseDao.kt:50-54 | newest first; returns 4 rows, or all rows when the table has fewer |
| Queries.WeekExpense | app/src/main/java/com/arduia/expense/data/local/ExpenseDao.kt:77-81 | returns exactly the rows with `modified_date > startTime`, newest first |
| Queries.MostRecentDate | app/src/main/java/com/arduia/expense/data/local/ExpenseDao.kt:41-42 | despite its name, gives the least `modified_date` of the table; null exactly when the table is empty |
| Queries.MostLatestDate | app/src/main/java/com/arduia/expense/data/local/ExpenseDao.kt:44-45 | gives the greatest `modified_date`; null exactly when the table is empty |
| Queries.PageKeepsOrder | app/src/main/java/com/arduia/expense/data/local/ExpenseDao.kt:26-36 | a page of an ascending or descending result keeps that order |
| Queries.RangeIsInclusive | app/src/main/java/com/arduia/expense/data/local/ExpenseDao.kt:26-36 | without paging, both range queries hold every row in the closed range, both ends included, and no other row |
| Queries.PageAll | app/src/main/java/com/arduia/expense/data/local/ExpenseDao.kt:26-36 | offset 0 and a negative limit return the whole result |
| Queries.RangePageOfFull | app/src/main/java/com/arduia/expense/data/local/ExpenseDao.kt:26-36 | a paged range query is the matching page of the unpaged, ordered result |
| Queries.RecentAreNewest | app/src/main/java/com/arduia/expense/data/local/ExpenseDao.kt:50-54 | every row left out of the recent list is no newer than any row in it |
| Queries.WeekExcludesStart | app/src/main/java/com/arduia/expense/data/local/ExpenseDao.kt:77-81 | a row is in the week's result exactly when it is in the table and strictly after the start |
| Dao.Put | app/src/main/java/com/arduia/expense/data/local/ExpenseDao.kt:11-12 | storing a row keeps ids strictly increasing; the result is the rows of the table with any row of that id replaced, and has one row more exactly when the id was absent |
| Dao.PutAfterAll | app/src/main/java/com/arduia/expense/data/local/ExpenseDao.kt:11-12 | a row with an id above all others is appended |
| Dao.InsertReplace | app/src/main/java/com/arduia/expense/data/local/ExpenseDao.kt:11-12 | `insertExpense` with REPLACE keeps the table consistent and never lowers the next AUTOINCREMENT id; a row with id 0 advances it by one |
| Dao.InsertReplaceRows | app/src/main/java/com/arduia/expense/data/local/ExpenseDao.kt:11-12 | after the insert the table holds the row under its assigned id and every other row whose id differs; a row with id 0 is appended under the next id |
| Dao.InsertAllFresh | app/src/main/java/com/arduia/expense/data/local/ExpenseDao.kt:14-15 | rows that all have id 0 never conflict: they are appended under consecutive fresh ids, and those ids are returned |
| Dao.ThrowIsPrimaryKey | app/src/main/java/com/arduia/expense/data/local/ExpenseDao.kt:14-15 | `insertExpenseAll` without REPLACE fails only with the primary-key violation |
| Dao.InsertAllKeepsConsistency | app/src/main/java/com/arduia/expense/data/local/ExpenseDao.kt:14-15 | a successful bulk insert leaves the table consistent |
| Dao.NumberedAt | app/src/main/java/com/arduia/expense/data/local/ExpenseDao.kt:14-15 | the i-th bulk-inserted row gets id `next + i` |
| Dao.Update | app/src/main/java/com/arduia/expense/data/local/ExpenseDao.kt:65-66 | `@Update` overwrites exactly the row with the same id and changes no other row; a missing id writes nothing |
| Dao.WhereKeepsIdOrder | app/src/main/java/com/arduia/expense/data/local/ExpenseDao.kt:71-75 | a filtered table stays in id order |
| Dao.DeleteIds | app/src/main/java/com/arduia/expense/data/local/ExpenseDao.kt:68-75 | a hard delete removes exactly the rows with the listed ids, keeps every other row, and keeps the table consistent |
| Dao.DeleteOneCount | app/src/main/java/com/arduia/expense/data/local/ExpenseDao.kt:71-72 | deleting one id removes one row when the id is present and none otherwise |
| Dao.WhereNone | app/src/main/java/com/arduia/expense/data/local/ExpenseDao.kt:71-72 | deleting an absent id changes nothing |
| Dao.MarkDeleted | app/src/main/java/com/arduia/expense/data/ExpenseRepositoryImpl.kt:183-197 | `markDeletedById(s)` stamps `deletedAt` and the state on the listed ids only; it never removes or adds a row |
| Dao.SetSyncState | app/src/main/java/com/arduia/expense/data/remote/supabase/SupabaseSyncRepository.kt:116-129 | `updateSyncState` changes the state of that id's row and nothing else |
| Dao.SetRemoteIdAndSyncState | app/src/main/java/com/arduia/expense/data/remote/supabase/SupabaseSyncRepository.kt:110-114 | `updateRemoteIdAndSyncState` changes the remote id and state of that id's row and nothing else |
| Dao.ClearAll | app/src/main/java/com/arduia/expense/data/local/LocalDataRepository.kt:13-16 | `clearAll` leaves the table empty; the AUTOINCREMENT counter stays |
| Dao.InPlaceWritesKeepIds | app/src/main/java/com/arduia/expense/data/local/ExpenseDao.kt:65-66 | the update, soft-delete and sync-state writes never move, add or drop a row |
| Dao.SameIdsKeepConsistency | app/src/main/java/com/arduia/expense/data/local/ExpenseDao.kt:65-66 | so those writes keep the table consistent |
| Dao.SoftDeleteKeepsRows | app/src/main/java/com/arduia/expense/data/ExpenseRepositoryImpl.kt:180-199 | a soft delete keeps the row count, and the marked row stays in the table |
| Dao.FirstWithRemoteId | app/src/main/java/com/arduia/expense/data/remote/supabase/SupabaseSyncRepository.kt:145 | `getByRemoteId` returns null exactly when no row has that remote id; otherwise it returns a row with that id that no earlier row shares |
| Dao.PendingRows | app/src/main/java/com/arduia/expense/data/remote/supabase/SupabaseSyncRepository.kt:84 | `getPendingSync` lists exactly the rows that are not SYNCED, in table order |
| Dao.ExpenseDao.InsertExpense | app/src/main/java/com/arduia/expense/data/local/ExpenseDao.kt:11-12 | the table becomes `InsertReplace` of the old one; the returned id is the stored row's id |
| Dao.ExpenseDao.InsertExpenseAll | app/src/main/java/com/arduia/expense/data/local/ExpenseDao.kt:14-15 | all rows or none: on a conflict the table is unchanged and the call throws; otherwise the table and the returned ids are as `InsertAll` gives them |
| Dao.ExpenseDao.UpdateExpense | app/src/main/java/com/arduia/expense/data/local/ExpenseDao.kt:65-66 | the table becomes `Update` of the old one; the returned count is 1 when the id was present and 0 otherwise |
| Dao.ExpenseDao.DeleteExpense | app/src/main/java/com/arduia/expense/data/local/ExpenseDao.kt:68-69 | removes the row with that primary key; returns the number of rows removed |
| Dao.ExpenseDao.DeleteExpenseRowById | app/src/main/java/com/arduia/expense/data/local/ExpenseDao.kt:71-72 | removes the row with that id; returns the number of rows removed |
| Dao.ExpenseDao.DeleteExpenseByIDs | app/src/main/java/com/arduia/expense/data/local/ExpenseDao.kt:74-75 | removes every listed id; returns the number of rows removed |
| Dao.ExpenseDao.MarkDeletedById | app/src/main/java/com/arduia/expense/data/ExpenseRepositoryImpl.kt:183-190 | the table becomes `MarkDeleted` of the old one for that id |
| Dao.ExpenseDao.MarkDeletedByIDs | app/src/main/java/com/arduia/expense/data/ExpenseRepositoryImpl.kt:197 | the table becomes `MarkDeleted` of the old one for the listed ids |
| Dao.ExpenseDao.UpdateSyncState | app/src/main/java/com/arduia/expense/data/remote/supabase/SupabaseSyncRepository.kt:116-129 | the table becomes `SetSyncState` of the old one |
| Dao.ExpenseDao.UpdateRemoteIdAndSyncState | app/src/main/java/com/arduia/expense/data/remote/supabase/SupabaseSyncRepository.kt:110-114 | the table becomes `SetRemoteIdAndSyncState` of the old one |
| Dao.ExpenseDao.ClearAllRows | app/src/main/java/com/arduia/expense/data/local/LocalDataRepository.kt:15 | the table becomes empty |
| Dao.ExpenseDao.GetItemExpense | app/src/main/java/com/arduia/expense/data/local/ExpenseDao.kt:38-39 | a row is found exactly when the id is present, and the row has that id |
| Dao.ExpenseDao.GetPendingSync | app/src/main/java/com/arduia/expense/data/remote/supabase/SupabaseSyncRepository.kt:84 | the table's pending rows |
| Dao.ExpenseDao.GetByRemoteId | app/src/main/java/com/arduia/expense/data/remote/supabase/SupabaseSyncRepository.kt:145 | the first row with that remote id |
| Settings.SettingsRepository.SetLastSyncAt | app/src/main/java/com/arduia/expense/data/SettingsRepositoryImpl.kt:105-107 | only `lastSyncAt` changes |
| Settings.SettingsRepository.SetLastAuthAt | app/src/main/java/com/arduia/expense/data/SettingsRepositoryImpl.kt:113-115 | only `lastAuthAt` changes |
| Settings.SettingsRepository.SetLastUserId | app/src/main/java/com/arduia/expense/data/SettingsRepositoryImpl.kt:121-123 | only `lastUserId` changes |
| Settings.SettingsRepository.SetUserName | app/src/main/java/com/arduia/expense/data/SettingsRepositoryImpl.kt:97-99 | only `userName` changes |
| LocalData.LocalDataRepository.ClearAll | app/src/main/java/com/arduia/expense/data/local/LocalDataRepository.kt:13-16 | both the backup and the expense table become empty |
| Repository.Dirty | app/src/main/java/com/arduia/expense/data/ExpenseRepositoryImpl.kt:28-33 | the inserted row is DIRTY and not deleted, and every other field is as given |
| Repository.DirtyAll | app/src/main/java/com/arduia/expense/data/ExpenseRepositoryImpl.kt:39-46 | the same rewrite applied to every row of the list, in order |
| Repository.Touched | app/src/main/java/com/arduia/expense/data/ExpenseRepositoryImpl.kt:170-178 | an updated row is DIRTY, with `deletedAt` as supplied and every other field as given |
| Repository.ExpenseRepositoryImpl.InsertExpense | app/src/main/java/com/arduia/expense/data/ExpenseRepositoryImpl.kt:26-35 | the DAO stores `Dirty(row)` with REPLACE |
| Repository.ExpenseRepositoryImpl.InsertExpenseAll | app/src/main/java/com/arduia/expense/data/ExpenseRepositoryImpl.kt:37-48 | the DAO bulk-inserts the rewritten rows; a conflict propagates and writes nothing |
| Repository.ExpenseRepositoryImpl.UpdateExpense | app/src/main/java/com/arduia/expense/data/ExpenseRepositoryImpl.kt:170-178 | the DAO updates `Touched(row)` |
| Repository.ExpenseRepositoryImpl.DeleteExpense | app/src/main/java/com/arduia/expense/data/ExpenseRepositoryImpl.kt:180-185 | a soft delete: that id is marked DELETED at `now` |
| Repository.ExpenseRepositoryImpl.DeleteExpenseById | app/src/main/java/com/arduia/expense/data/ExpenseRepositoryImpl.kt:187-192 | a soft delete of that id at `now` |
| Repository.ExpenseRepositoryImpl.DeleteAllExpense | app/src/main/java/com/arduia/expense/data/ExpenseRepositoryImpl.kt:194-199 | every listed id is marked DELETED with one timestamp |
| Repository.ExpenseRepositoryImpl.GetExpenseTotalCountSync | app/src/main/java/com/arduia/expense/data/ExpenseRepositoryImpl.kt:126-134 | Success with the number of rows, or Error with the DAO's exception |
| Repository.ExpenseRepositoryImpl.GetMostRecentDateSync | app/src/main/java/com/arduia/expense/data/ExpenseRepositoryImpl.kt:136-145 | the least `modified_date`, `now` on an empty table, or the DAO's error |
| Repository.ExpenseRepositoryImpl.GetMostLatestDateSync | app/src/main/java/com/arduia/expense/data/ExpenseRepositoryImpl.kt:147-156 | the greatest `modified_date`, `now` on an empty table, or the DAO's error |
| Repository.InsertedRowIsPending | app/src/main/java/com/arduia/expense/data/ExpenseRepositoryImpl.kt:26-35 | an inserted row is stored under its assigned id, DIRTY and not deleted, so the next push picks it up |
| Repository.InsertAllNewRows | app/src/main/java/com/arduia/expense/data/ExpenseRepositoryImpl.kt:37-48 | a bulk insert of new rows always succeeds, and appends every row rewritten and under fresh ids |
| Repository.DeleteIsSoft | app/src/main/java/com/arduia/expense/data/ExpenseRepositoryImpl.kt:180-192 | after a delete the row is still in the table, stamped and DELETED, and it is pending |
| Repository.DeleteAllSharesTimestamp | app/src/main/java/com/arduia/expense/data/ExpenseRepositoryImpl.kt:194-199 | every row marked by `deleteAllExpense` carries the same `deletedAt` |
| Sync.FromRemote | app/src/main/java/com/arduia/expense/data/remote/supabase/SupabaseSyncRepository.kt:159-170 | a remote row becomes a local row with the remote id, SYNCED, not deleted, and every field copied |
| Sync.Payload | app/src/main/java/com/arduia/expense/data/remote/supabase/SupabaseSyncRepository.kt:88-97 | the pushed payload carries the row's remote id and fields, the user's id, and no deletion |
| Sync.PayloadRoundTrip | app/src/main/java/com/arduia/expense/data/remote/supabase/SupabaseSyncRepository.kt:88-97 | pulling the pushed payload gives the local row back, SYNCED and not deleted |
| Sync.PushRequestChoice | app/src/main/java/com/arduia/expense/data/remote/supabase/SupabaseSyncRepository.kt:87-131 | a DIRTY row is sent by insert exactly when its remote id is blank, and by upsert otherwise. A DELETED row sends a soft delete exactly when its remote id is not blank. Other rows send nothing. |
| Sync.PushRowEffect | app/src/main/java/com/arduia/expense/data/remote/supabase/SupabaseSyncRepository.kt:108-129 | after a push only the pushed row changes: it becomes SYNCED, and takes the returned remote id when that id is not blank |
| Sync.PushSyncsPendingRows | app/src/main/java/com/arduia/expense/data/remote/supabase/SupabaseSyncRepository.kt:86-132 | the push loop changes only sync fields of listed pending rows; when no request throws, each of them ends SYNCED |
| Sync.PushSettlesPendingRows | app/src/main/java/com/arduia/expense/data/remote/supabase/SupabaseSyncRepository.kt:84-132 | pushing the pending list without a failure leaves no row DIRTY or DELETED, and changes no other field; the requests go out in list order up to and including the first that throws; each row answered before it is written with its own reply, and every other row stays |
| Sync.FirstThrow | app/src/main/java/com/arduia/expense/data/remote/supabase/SupabaseSyncRepository.kt:85-131 | the index of the first pending row whose request throws, every row before it being answered; the length of the list when none throws |
| Sync.PushSendsInOrder | app/src/main/java/com/arduia/expense/data/remote/supabase/SupabaseSyncRepository.kt:85-131 | the loop sends each row's request in order, insert or upsert for a DIRTY row and a soft delete for a DELETED row with a remote id, up to and including the first that throws, and then stops with that exception; it fails exactly when some request throws |
| Sync.PushWritesReplies | app/src/main/java/com/arduia/expense/data/remote/supabase/SupabaseSyncRepository.kt:85-131 | each row answered before the first throw is written with the reply to its own request: a DIRTY row turns SYNCED and takes the returned id when it is not blank, keeping its own otherwise; a DELETED row turns SYNCED; rows after the throw and rows not listed stay |
| Sync.PullKeepsConsistency | app/src/main/java/com/arduia/expense/data/remote/supabase/SupabaseSyncRepository.kt:143-176 | a pulled row keeps the table consistent |
| Sync.PullSkips | app/src/main/java/com/arduia/expense/data/remote/supabase/SupabaseSyncRepository.kt:144-157 | a remote row without an id, or a deleted one with no local match, changes nothing |
| Sync.PullMarksDeleted | app/src/main/java/com/arduia/expense/data/remote/supabase/SupabaseSyncRepository.kt:147-157 | a deleted remote row marks its local match deleted at that instant and SYNCED; other rows stay |
| Sync.PullOverwrites | app/src/main/java/com/arduia/expense/data/remote/supabase/SupabaseSyncRepository.kt:159-175 | a live remote row overwrites its local match in place, keeping the local id |
| Sync.PullInserts | app/src/main/java/com/arduia/expense/data/remote/supabase/SupabaseSyncRepository.kt:159-175 | a live remote row without a local match is appended as a new SYNCED row |
| Sync.PullThenLookup | app/src/main/java/com/arduia/expense/data/remote/supabase/SupabaseSyncRepository.kt:145-175 | after a live row is pulled, looking its remote id up gives that remote row's content |
| Sync.TwoWayOutcomes | app/src/main/java/com/arduia/expense/data/remote/supabase/SupabaseSyncRepository.kt:78-184 | with no user: Error("Not authenticated"), nothing sent, nothing written. Otherwise the sync succeeds exactly when no push throws and the fetch succeeds, and it counts every fetched row. A failure keeps the writes already made. |
| Sync.SuccessLeavesNothingToPush | app/src/main/java/com/arduia/expense/data/remote/supabase/SupabaseSyncRepository.kt:84-180 | after a successful two-way sync no row is DIRTY or DELETED |
| Sync.PullAllKeepsNothingToPush | app/src/main/java/com/arduia/expense/data/remote/supabase/SupabaseSyncRepository.kt:143-176 | the pull never creates pending rows |
| Sync.Downloaded | app/src/main/java/com/arduia/expense/data/remote/supabase/SupabaseSyncRepository.kt:53-66 | one new SYNCED row per fetched row, in order, each with id 0 |
| Sync.DownloadStores | app/src/main/java/com/arduia/expense/data/remote/supabase/SupabaseSyncRepository.kt:53-70 | into an empty table the bulk insert succeeds and stores the i-th fetched row, SYNCED, under id `nextId + i` |
| Sync.SupabaseSyncRepository.SyncDownExpenses | app/src/main/java/com/arduia/expense/data/remote/supabase/SupabaseSyncRepository.kt:42-76 | a non-empty table is left alone and the download is reported skipped with 0 rows. A failed fetch writes nothing. Otherwise every fetched row is stored in order under fresh ids and counted. |
| Sync.SupabaseSyncRepository.SyncTwoWay | app/src/main/java/com/arduia/expense/data/remote/supabase/SupabaseSyncRepository.kt:78-184 | result, requests sent and final table are those of `TwoWaySpec`; `lastSyncAt` is saved exactly when the sync succeeds |
| Sync.SupabaseSyncRepository.PushPending | app/src/main/java/com/arduia/expense/data/remote/supabase/SupabaseSyncRepository.kt:84-132 | the loop over the rows pending at its start gives the table, the requests and the failure of `PushFrom` |
| Sync.SupabaseSyncRepository.WriteBack | app/src/main/java/com/arduia/expense/data/remote/supabase/SupabaseSyncRepository.kt:108-129 | the local write after one push |
| Sync.SupabaseSyncRepository.PullOne | app/src/main/java/com/arduia/expense/data/remote/supabase/SupabaseSyncRepository.kt:144-175 | one fetched row changes the table exactly as `PullRow` says |
| Sync.SupabaseSyncRepository.PullRemote | app/src/main/java/com/arduia/expense/data/remote/supabase/SupabaseSyncRepository.kt:143-176 | the pull loop gives the table of `PullAll` |
| Login.Failed | app/src/main/java/com/arduia/expense/ui/login/LoginViewModel.kt:65-70 | the error state carries the exception's message, or the fallback text when there is none |
| Login.SameUserKeepsData | app/src/main/java/com/arduia/expense/ui/login/LoginViewModel.kt:47-53 | the local data is wiped exactly when the stored user id is not blank and differs from the current one |
| Login.SwitchSyncsFromEmpty | app/src/main/java/com/arduia/expense/ui/login/LoginViewModel.kt:49-67 | after a user switch the sync pushes nothing and only pulls |
| Login.SignedIn | app/src/main/java/com/arduia/expense/ui/login/LoginViewModel.kt:47-61 | after sign-in, `lastUserId` is the current id and `lastAuthAt` is `now`. A switch resets `lastSyncAt` to 0. `userName` is the profile name, or "" on a profile error. |
| Login.AfterSync | app/src/main/java/com/arduia/expense/ui/login/LoginViewModel.kt:62-67 | success exactly when the sync succeeds; a sync error gives its message or "Sync failed" |
| Login.SyncNowResult | app/src/main/java/com/arduia/expense/ui/login/LoginViewModel.kt:76-82 | Success maps to Success(Unit), Error to Error with the same exception, Loading to Loading |
| Login.LoginViewModel.SignIn | app/src/main/java/com/arduia/expense/ui/login/LoginViewModel.kt:38-43 | blank input sets the error "Email and password required" and launches nothing; other input sets loading |
| Login.LoginViewModel.RecordSignIn | app/src/main/java/com/arduia/expense/ui/login/LoginViewModel.kt:47-61 | a user switch wipes both tables; otherwise the table is unchanged. The settings become `SignedIn` of the old ones. Also returns whether the user switched. |
| Login.LoginViewModel.SignInLaunched | app/src/main/java/com/arduia/expense/ui/login/LoginViewModel.kt:44-73 | an auth failure sets the error and touches no setting or table. On success: a user switch wipes both tables; the settings are as `SignedIn` gives them; the table and the final state follow the sync. |
| Login.LoginViewModel.SyncNow | app/src/main/java/com/arduia/expense/ui/login/LoginViewModel.kt:76-82 | the two-way sync, with its result mapped by `SyncNowResult` and the table TwoWaySpec gives; `lastSyncAt` is saved as the finish time exactly on success, and no other setting changes |
| AmountInput.AcceptsIsPattern | app/src/test/java/com/arduia/expense/ui/entry/FloatingInputFilterTest.kt:16 | the recognizer accepts exactly the strings of the regular expression, written as a set of strings |
| AmountInput.DecimalsSpec | app/src/test/java/com/arduia/expense/ui/entry/FloatingInputFilterTest.kt:16 | the fraction part is at most 2 digits |
| AmountInput.WholeSpec | app/src/test/java/com/arduia/expense/ui/entry/FloatingInputFilterTest.kt:16 | the integer-part state accepts exactly `DigitsThenDot`: up to 8 digits in all, then nothing or a dot with up to 2 digits |
| AmountInput.UnsignedIsWhole | app/src/test/java/com/arduia/expense/ui/entry/FloatingInputFilterTest.kt:16 | the unsigned alternatives of the pattern and the recognizer agree |
| AmountInput.IntegerDigits | app/src/test/java/com/arduia/expense/ui/entry/FloatingInputFilterTest.kt:66-76 | a digit string is accepted exactly when it has at most 8 digits |
| AmountInput.DecimalDigits | app/src/test/java/com/arduia/expense/ui/entry/FloatingInputFilterTest.kt:78-88 | `d.f` with digit strings is accepted exactly when `d` has at most 8 digits and `f` at most 2 |
| AmountInput.Signs | app/src/test/java/com/arduia/expense/ui/entry/FloatingInputFilterTest.kt:102-112 | one leading sign is allowed, a second sign is rejected, and the sign does not change the verdict on the rest |
| AmountInput.AcceptedShape | app/src/test/java/com/arduia/expense/ui/entry/FloatingInputFilterTest.kt:90-100 | an accepted string has only digits, at most one dot, and a sign only in front |
| AmountInput.AcceptsPartialEntries | app/src/test/java/com/arduia/expense/ui/entry/FloatingInputFilterTest.kt:142-171 | "", ".", "+", "-", "1." and ".5" are accepted |
| AmountInput.AcceptsLongestInteger | app/src/test/java/com/arduia/expense/ui/entry/FloatingInputFilterTest.kt:114-127 | "12345678", eight integer digits, is accepted |
| AmountInput.AcceptsMaximumAmount | app/src/test/java/com/arduia/expense/ui/entry/FloatingInputFilterTest.kt:130-140 | the maximum amount "99999999.99" is accepted |
| AmountInput.AcceptsLongestAmounts | app/src/test/java/com/arduia/expense/ui/entry/FloatingInputFilterTest.kt:192-210 | "12345678.99", the longest business case, is accepted |
| AmountInput.AcceptsSignedAndPadded | app/src/test/java/com/arduia/expense/ui/entry/FloatingInputFilterTest.kt:102-128 | signed and zero-padded amounts are accepted |
| AmountInput.RejectsNineIntegerDigits | app/src/test/java/com/arduia/expense/ui/entry/FloatingInputFilterTest.kt:66-76 | "123456789", nine integer digits, is rejected |
| AmountInput.RejectsTooManyDecimals | app/src/test/java/com/arduia/expense/ui/entry/FloatingInputFilterTest.kt:78-88 | "1.123" and "12.3456" are rejected |
| AmountInput.RejectsTooManyDecimalsAfterTwoDigits | app/src/test/java/com/arduia/expense/ui/entry/FloatingInputFilterTest.kt:78-88 | "99.999" and "10.5555" are rejected |
| AmountInput.RejectsThreeDecimals | app/src/test/java/com/arduia/expense/ui/entry/FloatingInputFilterTest.kt:173-190 | "123.456" and ".456" are rejected |
| AmountInput.RejectsMalformed | app/src/test/java/com/arduia/expense/ui/entry/FloatingInputFilterTest.kt:90-100 | double signs, repeated dots, "," and other characters are rejected |
| KotlinMath.TruncDiv | app/src/main/java/com/arduia/expense/ui/MainActivity.kt:417-418 | Kotlin division truncates toward zero: it is Euclidean division for non-negative dividends, and its negation for negative ones |
| KotlinMath.TruncatesTowardZero | app/src/main/java/com/arduia/expense/ui/MainActivity.kt:417-418 | a small negative dividend gives 0, where Euclidean division gives -1 |
| KotlinMath.Saturate | app/src/main/java/com/arduia/expense/ui/home/ExpenseRateCalculatorImpl.kt:32-33 | `Double.toInt` stays in the `Int` range, is the identity inside it, and clamps at both bounds |
| RateCalculator.MaxFrom | app/src/main/java/com/arduia/expense/ui/home/ExpenseRateCalculatorImpl.kt:28 | the largest daily cost among days d..7, present exactly when one of those days has a cost |
| RateCalculator.MaxCostIsMaximum | app/src/main/java/com/arduia/expense/ui/home/ExpenseRateCalculatorImpl.kt:28 | `maxCost` bounds every daily cost and is one of them; it is 0 for an empty week |
| RateCalculator.ExpenseRateCalculatorImpl.SetWeekExpenses | app/src/main/java/com/arduia/expense/ui/home/ExpenseRateCalculatorImpl.kt:24-52 | the list is replaced, not appended to. The rate map's keys are exactly the days that hold an expense, and each value is the day's rate against the week's largest daily cost. An empty list leaves no rates. |
| RateCalculator.ExpenseRateCalculatorImpl.DailyCostsOf | app/src/main/java/com/arduia/expense/ui/home/ExpenseRateCalculatorImpl.kt:40-48 | the daily costs have keys in 1..7, exactly the days that hold an expense, and each day's value is the sum of its amounts |
| RateCalculator.ExpenseRateCalculatorImpl.GetDailyCosts | app/src/main/java/com/arduia/expense/ui/home/ExpenseRateCalculatorImpl.kt:40-48 | the `forEach` loop builds exactly those daily costs |
| RateCalculator.ExpenseRateCalculatorImpl.RatesFor | app/src/main/java/com/arduia/expense/ui/home/ExpenseRateCalculatorImpl.kt:26-35 | the rate map: keys exactly the days with an expense, each value `RateOf(cost, maxCost)`; empty for an empty list |
| RateCalculator.RatesOfDays | app/src/main/java/com/arduia/expense/ui/home/ExpenseRateCalculatorImpl.kt:30-34 | the loop over 1..7 keeps exactly the days with a cost, and maps each to its rate |
| RateCalculator.NoDayNoTotal | app/src/main/java/com/arduia/expense/ui/home/ExpenseRateCalculatorImpl.kt:40-48 | a day without an expense adds up to 0 |
| RateCalculator.DayTotalNonNegative | app/src/main/java/com/arduia/expense/ui/home/ExpenseRateCalculatorImpl.kt:40-48 | non-negative amounts give non-negative daily costs |
| RateCalculator.RatesAreShares | app/src/main/java/com/arduia/expense/ui/home/ExpenseRateCalculatorImpl.kt:28-33 | with non-negative costs every rate is in 0..100; the costliest day gets 100 when its cost is positive; an all-zero week gives 0, as `NaN.toInt()` does |
| RateCalculator.RatesOfNonNegativeWeek | app/src/main/java/com/arduia/expense/ui/home/ExpenseRateCalculatorImpl.kt:27-33 | for a week of non-negative amounts, every day's rate is in 0..100 |
| RateCalculator.EmptyWeekNoRates | app/src/main/java/com/arduia/expense/ui/home/ExpenseRateCalculatorImpl.kt:27-35 | a rate map keyed by the days of an empty list is the empty map |
| Home.IncomePlusOutcome | app/src/main/java/com/arduia/expense/ui/home/HomeViewModel.kt:196-206 | week income plus week outcome is the total of the whole week |
| Home.WhereAllOrNone | app/src/main/java/com/arduia/expense/ui/home/HomeViewModel.kt:159-161 | a filter every row passes keeps the list; one no row passes gives nothing |
| Home.OneSidedWeek | app/src/main/java/com/arduia/expense/ui/home/HomeViewModel.kt:196-206 | a week of only income has outcome 0 and income equal to its total, and the other way round |
| Home.Positions | app/src/main/java/com/arduia/expense/ui/home/HomeViewModel.kt:159-161 | the positions of the matching rows are in bounds and strictly increasing |
| Home.PositionsPick | app/src/main/java/com/arduia/expense/ui/home/HomeViewModel.kt:159-161 | the filtered list is the list read at those positions |
| Home.PositionsComplete | app/src/main/java/com/arduia/expense/ui/home/HomeViewModel.kt:159-161 | a position is listed exactly when the row there matches |
| Home.CalculatorGetsOutcomesInOrder | app/src/main/java/com/arduia/expense/ui/home/HomeViewModel.kt:159-161 | the calculator is given exactly the non-INCOME rows, in their original order |
| Home.HomeViewModel.OnDeletePrepared | app/src/main/java/com/arduia/expense/ui/home/HomeViewModel.kt:111-114 | records the id and posts a delete dialog for one row without a name |
| Home.HomeViewModel.OnDeleteConfirmed | app/src/main/java/com/arduia/expense/ui/home/HomeViewModel.kt:103-109 | with no prepared id, nothing happens; otherwise exactly that id is soft-deleted and the item-deleted event is posted |
| Home.HomeViewModel.OnWeekExpenses | app/src/main/java/com/arduia/expense/ui/home/HomeViewModel.kt:133-146 | Loading changes nothing; Error posts `onError` and keeps the totals and rates; Success posts the week's income and outcome and feeds the calculator the week's outcomes, whose rates are then those of the outcomes: keys exactly the weekdays with an outcome, each value the day's rate against the costliest day, none for a week without outcomes |
| Home.HomeViewModel.UpdateIncomeOutcome | app/src/main/java/com/arduia/expense/ui/home/HomeViewModel.kt:158-178 | the calculator gets the non-INCOME rows and its rates become theirs: keys exactly the weekdays with an outcome, each value that day's rate against the costliest day; the posted income and outcome are the sums of the income and non-income rows |
| Currency.Find | app/src/main/java/com/arduia/expense/data/CurrencyRepositoryImpl.kt:35 | `find` gives null exactly when no row has the number; otherwise a row of the list with that number |
| Currency.FindIsFirst | app/src/main/java/com/arduia/expense/data/CurrencyRepositoryImpl.kt:35 | the row found is the first one with the number |
| Currency.FindDistinct | app/src/main/java/com/arduia/expense/data/CurrencyRepositoryImpl.kt:35 | with distinct numbers, looking up a row's number gives that row |
| Currency.CurrencyRepositoryImpl.constructor | app/src/main/java/com/arduia/expense/data/CurrencyRepositoryImpl.kt:16-17 | starts with an empty list and the cached number "" |
| Currency.CurrencyRepositoryImpl.OnDaoCurrencies | app/src/main/java/com/arduia/expense/data/CurrencyRepositoryImpl.kt:19-23 | each list from the DAO replaces the mirrored one |
| Currency.CurrencyRepositoryImpl.GetCurrencies | app/src/main/java/com/arduia/expense/data/CurrencyRepositoryImpl.kt:25-30 | emits Loading, then Success of the current list |
| Currency.CurrencyRepositoryImpl.GetSelectedCacheCurrency | app/src/main/java/com/arduia/expense/data/CurrencyRepositoryImpl.kt:32-39 | emits the first row with the cached number; when none matches, emits nothing |
| Currency.CurrencyRepositoryImpl.SetSelectedCacheCurrency | app/src/main/java/com/arduia/expense/data/CurrencyRepositoryImpl.kt:41-43 | only the cached number changes |
| Main.MainViewModel.constructor | app/src/main/java/com/arduia/expense/ui/MainViewModel.kt:40-45 | the force-upgrade state starts as (false, null) |
| Main.MainViewModel.OnUpdateStatus | app/src/main/java/com/arduia/expense/ui/MainViewModel.kt:47-64 | a status other than force-upgrade sets (false, null); force-upgrade sets (true, the mapped info); a non-success changes nothing |
| Main.MainViewModel.OnSelectedCurrencyNumber | app/src/main/java/com/arduia/expense/ui/MainViewModel.kt:66-75 | only a Success is cached, as the emitted number; Error and Loading leave the cache as it is |
| Server.GetAboutUpdateSync | app/src/main/java/com/arduia/expense/data/ProExpenseServerRepositoryImpl.kt:60-89 | an update is due exactly when `current <= min_version`, and critical exactly when `current <= critical_version`, in both branches. The info is passed on unchanged. Any failure is an error carrying the exception. |
| Server.MinVersionMonotone | app/src/main/java/com/arduia/expense/data/ProExpenseServerRepositoryImpl.kt:68-84 | raising the minimum version never withdraws a due update, and leaves the critical flag and the info unchanged |
| Server.GetVersionStatus | app/src/main/java/com/arduia/expense/data/ProExpenseServerRepositoryImpl.kt:52-58 | emits exactly when `version_info` is not blank and parses, and then emits the parsed value |
| Status.CheckConnection | app/src/main/java/com/arduia/expense/data/remote/supabase/SupabaseStatusRepository.kt:14-32 | a working probe gives "Connected". A failure mentioning an auth keyword gives "Connected (auth required)". Any other failure is an Error with the same exception. |
| Status.NullMessageIsError | app/src/main/java/com/arduia/expense/data/remote/supabase/SupabaseStatusRepository.kt:22 | a failure without a message is an error |
| Status.KeywordAnywhere | app/src/main/java/com/arduia/expense/data/remote/supabase/SupabaseStatusRepository.kt:23-25 | "jwt", "unauthorized" or "permission" anywhere in the message marks it as an auth problem |
| Status.CaseDoesNotMatter | app/src/main/java/com/arduia/expense/data/remote/supabase/SupabaseStatusRepository.kt:23-25 | messages that differ only in letter case are classified alike |
| Status.AuthExamples | app/src/main/java/com/arduia/expense/data/remote/supabase/SupabaseStatusRepository.kt:23-27 | "JWT expired" and "Permission denied" are auth problems |
| Activity.ReauthAfterThirtyDays | app/src/main/java/com/arduia/expense/ui/MainActivity.kt:412-426 | re-auth is due when `lastAuthAt` is 0, or at least 30 whole days have passed; with the clock behind the last auth, only a 0 counts |
| Activity.OnlyTopDestinationsUnlock | app/src/main/java/com/arduia/expense/ui/MainActivity.kt:197-213 | the drawer is unlocked exactly on the top destinations |
| Activity.ConnectionMessage | app/src/main/java/com/arduia/expense/ui/MainActivity.kt:223-237 | the connection toast shows the status text, "Not connected" on an error, or "Checking..." while loading |
| Activity.ConnectionToast | app/src/main/java/com/arduia/expense/ui/MainActivity.kt:223-237 | the toast for each probe outcome: connected, auth required, or not connected |
| Activity.BackupFinishedMessage | app/src/main/java/com/arduia/expense/ui/MainActivity.kt:147-155 | the imported-items message uses the plural form exactly when the count is above 1 |
| Activity.SelectPage | app/src/main/java/com/arduia/expense/ui/MainActivity.kt:222-275 | the check item probes the connection; login signs out when signed in and opens login otherwise; every other item navigates, popping to home only for home |
| Activity.MainActivity.OpenDrawer | app/src/main/java/com/arduia/expense/ui/MainActivity.kt:285-287 | opens the drawer; every other field of the activity is unchanged |
| Activity.MainActivity.OnNavigationItemSelected | app/src/main/java/com/arduia/expense/ui/MainActivity.kt:174-181 | the selection is deferred, replacing any earlier one, and the drawer closes; every other field is unchanged |
| Activity.MainActivity.OnDrawerClosed | app/src/main/java/com/arduia/expense/ui/MainActivity.kt:189-192 | the deferred selection runs once, with the sign-in state it was selected under, and is then cleared; every other field is unchanged |
| Activity.MainActivity.OnBackPressed | app/src/main/java/com/arduia/expense/ui/MainActivity.kt:308-321 | with the drawer open, back closes it and is consumed; otherwise it is passed on; every other field is unchanged |
| Activity.MainActivity.OnDestinationChanged | app/src/main/java/com/arduia/expense/ui/MainActivity.kt:197-214 | locks the drawer off the top destinations; on home the add button targets the entry page and its show task is armed, showing it at once unless a snack is up; elsewhere the task is dropped and the button hidden; the whole new state in each case |
| Activity.MainActivity.ShowAddButton | app/src/main/java/com/arduia/expense/ui/MainActivity.kt:323-341 | arms the show task; shows the button at once unless a snack is up; every other field is unchanged |
| Activity.MainActivity.OnShowDelayElapsed | app/src/main/java/com/arduia/expense/ui/MainActivity.kt:323-341 | the delayed show acts only while its task is still armed, and otherwise changes nothing |
| Activity.MainActivity.ShowAddFab | app/src/main/java/com/arduia/expense/ui/MainActivity.kt:348-351 | the button is shown and clickable; every other field is unchanged |
| Activity.MainActivity.HideAddButton | app/src/main/java/com/arduia/expense/ui/MainActivity.kt:353-357 | clears the pending show task and hides the button; every other field is unchanged |
| Activity.MainActivity.ShowBackupFinishedMessage | app/src/main/java/com/arduia/expense/ui/MainActivity.kt:147-155 | shows the snack with the imported-items message; every other field is unchanged |
| Activity.MainActivity.OnSnackHidden | app/src/main/java/com/arduia/expense/ui/MainActivity.kt:359-363 | the snack is gone; every other field, the last message included, is unchanged |
| Activity.MainActivity.OnSignOut | app/src/main/java/com/arduia/expense/ui/MainActivity.kt:238-266 | a successful sign-out empties the local data, sets `lastSyncAt` 0, `lastUserId` "" and `userName` "", and cancels the sync work; a failed one changes no field of the activity, the settings or the tables |
| Activity.MainActivity.OnResume | app/src/main/java/com/arduia/expense/ui/MainActivity.kt:412-433 | the menu is retitled and sync scheduled for a signed-in user; login opens exactly when a user is signed in and re-auth is due by the stored `lastAuthAt`; with no user there is no check; the drawer, FAB and snack fields are unchanged |

## Left out

- Rendering: views, Compose screens, toasts, snackbars and their durations.
  The snackbar's delay is reduced to the events `OnShowDelayElapsed` and
  `OnSnackHidden`.
- Network, Supabase, Firebase, Gson and `Instant` parsing. Their outcomes are
  inputs: a reply per push request, the fetched snapshot, the remote config
  values and the probe's exception.
- Coroutines, Flow, dispatchers and WorkManager. A collector becomes one
  method call per emitted value. Scheduling and cancelling sync work is
  reduced to the `syncScheduled` flag.
- `Double` and `Float` arithmetic. Sums and rates use exact integers. A
  rate can differ from the `Double` computation only by rounding.
- Calendar arithmetic. The day-of-week of a timestamp is a given function,
  and week start times are parameters.
- `Amount` internals. An amount is an opaque integer.
- Kotlin's 64-bit `Long` overflow in `now - lastAuthAt` is not modelled,
  since clock values are far below the bound.
- Case-insensitive matching folds ASCII letters only. Unicode case folding
  is not modelled.
- `getMaxAndMiniDateRange`: never called by the core.
- The Flow and `DataSource` variants of the queries share one function with
  their plain variants.
- The order of rows with equal `modified_date` is left open by SQL. The
  sorts fix one order, and the contracts say only what SQL promises.
- The table is a sequence in id order, not a map keyed by id. An id is
  still present at most once.
- Exceptions from DAO calls inside the sync, and DAO read failures other
  than those of the count and date queries, are not modelled.
- Every soft-delete push in one sync uses the same `now` for its remote
  timestamp.
- `lastSyncAt` is read by `syncTwoWay` but never used, so the read is left
  out and the pull is a full snapshot.
- Settings read failures inside `getDataOrError` are not modelled. A
  Loading result there counts as a throw.
- `LoginViewModel.signIn` is split in two: `SignIn` checks the input, and
  `SignInLaunched` is the coroutine that follows.
- `currentUserOrNull` and `currentUserId` are one input.
- The `catch` blocks that build an error without emitting it are modelled as
  emitting nothing.
- `HomeViewModel` members left out:
  - `selectItemForDetail`;
  - `observeCurrencySymbol`, `observeRate` and the recent-data feed;
  - the formatting of the income/outcome strings (they are kept as numbers);
  - the currency symbol and the date-range text.
- Dao.ExpenseDao.GetItemExpense: answers `None` for an absent id, as Room
  emits null then, although the Kotlin return type `Flow<ExpenseEnt>` does
  not declare the null.
- Home.HomeViewModel.UpdateIncomeOutcome: the totals are posted at once. In
  the app the post waits on the selected-currency lookup
  (`getSelectedCacheCurrency().awaitValueOrError()`), and a failed lookup
  stops the post; the currency lookup is not modelled.
- `MainActivity` members left out:
  - the `showForceUpgrade` dialog;
  - the drawer lock's effect on `openDrawer` (the drawer opens whatever the
    lock says, as the call itself does);
  - the navigation back stack beyond the pop-to-home flag.
- `ProExpenseServerRepositoryImpl.postFeedback`: a plain network call.
