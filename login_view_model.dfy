/** `LoginViewModel`: input check, sign-in, the wipe of local data when a
    different user signs in, the settings written after sign-in, and the
    final UI state, decided by the two-way sync. The auth and profile
    services enter as their results; the sync is the modelled one. */
module Login {
  import opened Results
  import opened Text
  import Dao
  import Settings
  import LocalData
  import Sync

  datatype LoginUiState = LoginUiState(loading: bool, success: bool, error: Option<string>)

  /** `LoginUiState()`: neither loading, succeeded nor failed. */
  const Idle := LoginUiState(false, false, None)
  const LoadingState := LoginUiState(true, false, None)

  /** The error state for an exception: its message, or `fallback` when it
      has none. */
  function Failed(e: Exception, fallback: string): (u: LoginUiState)
    ensures !u.loading && !u.success
    ensures e.message.Some? ==> u.error == e.message
    ensures e.message.None? ==> u.error == Some(fallback)
  {
    LoginUiState(false, false, Some(e.message.GetOr(fallback)))
  }

  /** A different user signs in: the stored id is set and is not the
      current one. */
  predicate SwitchesUser(lastUserId: string, currentUserId: string) {
    !IsBlank(lastUserId) && lastUserId != currentUserId
  }

  /** The same user again, or no stored user, keeps the local data. */
  lemma SameUserKeepsData(lastUserId: string, currentUserId: string)
    ensures IsBlank(lastUserId) || lastUserId == currentUserId <==> !SwitchesUser(lastUserId, currentUserId)
  {
  }

  /** After a user switch the sync starts from an empty table: it sends
      nothing, so rows the previous user had not pushed are lost, and on
      success the table holds just the new user's pulled rows. */
  lemma SwitchSyncsFromEmpty(s: Dao.Store, userId: Option<string>, server: Sync.Server, now: int,
                             fetched: Call<seq<Sync.RemoteExpense>>)
    ensures var spec := Sync.TwoWaySpec(Dao.ClearAll(s), userId, server, now, fetched);
            && spec.sent == []
            && (spec.result.Success? ==> spec.store == Sync.PullAll(Dao.ClearAll(s), fetched.value))
  {
    var empty := Dao.ClearAll(s);
    var p := Dao.PendingRows(empty.rows);
    assert p == [];
  }

  /** The settings after a successful sign-in, before the sync: a user
      switch resets the sync time and name; the current id is stored; the
      name becomes the fetched one, or "" when the fetch fails, and stays
      when it is still loading; the sign-in time is stored. */
  function SignedIn(before: Settings.Settings, currentUserId: string, profile: Result<string>, now: int):
    (after: Settings.Settings)
    ensures after.lastUserId == currentUserId && after.lastAuthAt == now
    ensures after.lastSyncAt == if SwitchesUser(before.lastUserId, currentUserId) then 0 else before.lastSyncAt
    ensures profile.Success? ==> after.userName == profile.data
    ensures profile.Error? ==> after.userName == ""
    ensures profile.Loading? ==>
              after.userName == if SwitchesUser(before.lastUserId, currentUserId) then "" else before.userName
  {
    var wiped := if SwitchesUser(before.lastUserId, currentUserId) then before.(lastSyncAt := 0, userName := "")
                 else before;
    var stored := wiped.(lastUserId := currentUserId);
    var named := match profile
                 case Success(name) => stored.(userName := name)
                 case Error(_) => stored.(userName := "")
                 case Loading => stored;
    named.(lastAuthAt := now)
  }

  /** The final state after the sync: success exactly when it succeeds. */
  function AfterSync(sync: Result<Sync.SyncResult>): (u: LoginUiState)
    ensures u.success <==> sync.Success?
    ensures sync.Success? ==> u == LoginUiState(false, true, None)
    ensures sync.Error? ==> u == Failed(sync.exception, "Sync failed")
    ensures sync.Loading? ==> u == LoadingState
  {
    match sync
    case Success(_) => LoginUiState(false, true, None)
    case Error(e) => Failed(e, "Sync failed")
    case Loading => LoadingState
  }

  /** `syncNow`'s answer for a sync result. */
  function SyncNowResult(sync: Result<Sync.SyncResult>): (r: Result<()>)
    ensures r.Success? <==> sync.Success?
    ensures r.Error? <==> sync.Error?
    ensures r.Error? ==> r.exception == sync.exception
  {
    match sync
    case Success(_) => Success(())
    case Error(e) => Error(e)
    case Loading => Loading
  }

  class LoginViewModel {
    var uiState: LoginUiState
    const syncRepository: Sync.SupabaseSyncRepository
    const settingsRepository: Settings.SettingsRepository
    const localDataRepository: LocalData.LocalDataRepository

    constructor(syncRepository: Sync.SupabaseSyncRepository, settingsRepository: Settings.SettingsRepository,
                localDataRepository: LocalData.LocalDataRepository)
      ensures uiState == Idle
      ensures this.syncRepository == syncRepository && this.settingsRepository == settingsRepository
      ensures this.localDataRepository == localDataRepository
    {
      uiState := Idle;
      this.syncRepository := syncRepository;
      this.settingsRepository := settingsRepository;
      this.localDataRepository := localDataRepository;
    }

    /** The repositories share one settings store and one expense table. */
    predicate Wired() {
      syncRepository.settingsRepository == settingsRepository &&
      localDataRepository.expenseDao == syncRepository.expenseDao
    }

    /** The synchronous part of `signIn`: a blank email or password is an
        error and launches nothing; otherwise the state is loading and the
        sign-in is launched. */
    method SignIn(email: string, password: string) returns (launched: bool)
      modifies this
      ensures launched <==> !IsBlank(email) && !IsBlank(password)
      ensures !launched ==> uiState == LoginUiState(false, false, Some("Email and password required"))
      ensures launched ==> uiState == LoadingState
    {
      if IsBlank(email) || IsBlank(password) {
        uiState := LoginUiState(false, false, Some("Email and password required"));
        return false;
      }
      uiState := LoadingState;
      return true;
    }

    /** The launched part of `signIn`, given the auth service's answer, the
        signed-in user's id, the profile's answer, the clock, and the
        server as the sync sees it. A failed or unfinished sign-in touches
        no setting and no table. */
    method SignInLaunched(auth: Result<()>, currentUserId: Option<string>, profile: Result<string>, now: int,
                          server: Sync.Server, fetched: Call<seq<Sync.RemoteExpense>>, finishedAt: int)
      requires Wired() && syncRepository.expenseDao.Valid()
      modifies this, settingsRepository, syncRepository.expenseDao, localDataRepository.backupDao
      ensures syncRepository.expenseDao.Valid()
      ensures auth.Error? ==> uiState == Failed(auth.exception, "Login failed")
      ensures auth.Loading? ==> uiState == LoadingState
      ensures !auth.Success? ==>
                && settingsRepository.settings == old(settingsRepository.settings)
                && syncRepository.expenseDao.State() == old(syncRepository.expenseDao.State())
                && localDataRepository.backupDao.rowCount == old(localDataRepository.backupDao.rowCount)
      ensures auth.Success? ==>
                var current := OrEmpty(currentUserId);
                var switched := SwitchesUser(old(settingsRepository.settings).lastUserId, current);
                var start := if switched then Dao.ClearAll(old(syncRepository.expenseDao.State()))
                             else old(syncRepository.expenseDao.State());
                var spec := Sync.TwoWaySpec(start, currentUserId, server, now, fetched);
                var signed := SignedIn(old(settingsRepository.settings), current, profile, now);
                && syncRepository.expenseDao.State() == spec.store
                && uiState == AfterSync(spec.result)
                && settingsRepository.settings ==
                     (if spec.result.Success? then signed.(lastSyncAt := finishedAt) else signed)
                && localDataRepository.backupDao.rowCount ==
                     (if switched then 0 else old(localDataRepository.backupDao.rowCount))
    {
      match auth {
        case Success(_) =>
          var _ := RecordSignIn(OrEmpty(currentUserId), profile, now);
          var sync, _ := syncRepository.SyncTwoWay(currentUserId, server, now, fetched, finishedAt);
          uiState := AfterSync(sync);
        case Error(e) =>
          uiState := Failed(e, "Login failed");
        case Loading =>
          uiState := LoadingState;
      }
    }

    /** The writes of a successful sign-in before the sync: on a user
        switch both tables are wiped and the sync time and name reset; then
        the settings become what `SignedIn` says. */
    method RecordSignIn(current: string, profile: Result<string>, now: int) returns (switched: bool)
      requires Wired() && syncRepository.expenseDao.Valid()
      modifies settingsRepository, syncRepository.expenseDao, localDataRepository.backupDao
      ensures syncRepository.expenseDao.Valid()
      ensures switched == SwitchesUser(old(settingsRepository.settings).lastUserId, current)
      ensures syncRepository.expenseDao.State() ==
                if switched then Dao.ClearAll(old(syncRepository.expenseDao.State()))
                else old(syncRepository.expenseDao.State())
      ensures settingsRepository.settings == SignedIn(old(settingsRepository.settings), current, profile, now)
      ensures localDataRepository.backupDao.rowCount ==
                if switched then 0 else old(localDataRepository.backupDao.rowCount)
    {
      var lastUserId := settingsRepository.settings.lastUserId;
      switched := !IsBlank(lastUserId) && lastUserId != current;
      if switched {
        localDataRepository.ClearAll();
        settingsRepository.SetLastSyncAt(0);
        settingsRepository.SetUserName("");
      }
      settingsRepository.SetLastUserId(current);
      match profile {
        case Success(name) => settingsRepository.SetUserName(name);
        case Error(_) => settingsRepository.SetUserName("");
        case Loading =>
      }
      settingsRepository.SetLastAuthAt(now);
    }

    /** `syncNow`. */
    method SyncNow(userId: Option<string>, server: Sync.Server, now: int,
                   fetched: Call<seq<Sync.RemoteExpense>>, finishedAt: int) returns (r: Result<()>)
      requires syncRepository.expenseDao.Valid()
      modifies syncRepository.expenseDao, syncRepository.settingsRepository
      ensures syncRepository.expenseDao.Valid()
      ensures var spec := Sync.TwoWaySpec(old(syncRepository.expenseDao.State()), userId, server, now, fetched);
              r == SyncNowResult(spec.result) && syncRepository.expenseDao.State() == spec.store
      ensures syncRepository.settingsRepository.settings ==
                if r.Success? then old(syncRepository.settingsRepository.settings).(lastSyncAt := finishedAt)
                else old(syncRepository.settingsRepository.settings)
    {
      var sync, _ := syncRepository.SyncTwoWay(userId, server, now, fetched, finishedAt);
      r := SyncNowResult(sync);
    }
  }
}
