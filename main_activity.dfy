/** `MainActivity`: the rules behind the navigation drawer, the add button,
    the drawer menu, sign-out and the monthly re-authentication. Views,
    toasts, snack bars and work scheduling are reduced to the flags and
    values these rules read and write; the auth service enters as the
    results of its calls. */
module Activity {
  import opened Results
  import opened KotlinMath
  import opened Text
  import Dao
  import Settings
  import LocalData
  import Status

  /** The navigation destinations the activity tells apart. */
  datatype Destination =
    | Home | Backup | Statistics | Feedback | About | SettingsPage | ExpenseLogs
    | ExpenseEntry | Check | Login | OtherDestination(id: int)

  /** `TOP_DESTINATIONS`. */
  const TOP_DESTINATIONS: seq<Destination> := [Home, Backup, Statistics, Feedback, About, SettingsPage, ExpenseLogs]

  /** `1000L * 60 * 60 * 24`. */
  const DAY_MILLIS: int := 1000 * 60 * 60 * 24

  const REAUTH_DAYS: int := 30

  // --------------------------------------------------------------- rules

  /** `enforceMonthlyReauth`'s test for a signed-in user: never
      authenticated, or at least thirty whole days, by Kotlin's truncating
      `Long` division, since the last authentication. */
  predicate ReauthRequired(lastAuth: int, now: int) {
    lastAuth == 0 || TruncDiv(now - lastAuth, DAY_MILLIS) >= REAUTH_DAYS
  }

  /** With the clock not behind the last authentication, re-auth is due
      exactly when thirty days' worth of milliseconds have passed; with it
      behind, only a missing authentication forces it. */
  lemma ReauthAfterThirtyDays(lastAuth: int, now: int)
    ensures lastAuth <= now ==> (ReauthRequired(lastAuth, now) <==> lastAuth == 0 || now - lastAuth >= REAUTH_DAYS * DAY_MILLIS)
    ensures now < lastAuth ==> (ReauthRequired(lastAuth, now) <==> lastAuth == 0)
  {
    var d := now - lastAuth;
    if d >= 0 {
      assert d / DAY_MILLIS >= REAUTH_DAYS <==> d >= REAUTH_DAYS * DAY_MILLIS by {
        if d >= REAUTH_DAYS * DAY_MILLIS {
          assert d == (d / DAY_MILLIS) * DAY_MILLIS + d % DAY_MILLIS;
        }
        if d / DAY_MILLIS >= REAUTH_DAYS {
          assert d == (d / DAY_MILLIS) * DAY_MILLIS + d % DAY_MILLIS;
        }
      }
    } else {
      assert TruncDiv(d, DAY_MILLIS) <= 0;
    }
  }

  /** The drawer can be opened exactly on the top destinations. */
  predicate DrawerUnlocked(dest: Destination) {
    dest in TOP_DESTINATIONS
  }

  lemma OnlyTopDestinationsUnlock(dest: Destination)
    ensures DrawerUnlocked(dest) <==> !(dest.ExpenseEntry? || dest.Check? || dest.Login? || dest.OtherDestination?)
  {
  }

  /** The toast after a connection check. */
  function ConnectionMessage(r: Result<string>): (m: string)
    ensures r.Success? ==> m == r.data
    ensures r.Error? ==> m == "Not connected"
    ensures r.Loading? ==> m == "Checking..."
  {
    match r
    case Success(data) => data
    case Error(_) => "Not connected"
    case Loading => "Checking..."
  }

  /** The connection-check toast for a probe: the status text when the
      server answers or asks for auth, "Not connected" otherwise. */
  lemma ConnectionToast(probe: Option<Exception>)
    ensures probe.None? ==> ConnectionMessage(Status.CheckConnection(probe)) == Status.CONNECTED
    ensures probe.Some? && Status.AuthLikely(OrEmpty(probe.value.message)) ==>
              ConnectionMessage(Status.CheckConnection(probe)) == Status.CONNECTED_AUTH_REQUIRED
    ensures probe.Some? && !Status.AuthLikely(OrEmpty(probe.value.message)) ==>
              ConnectionMessage(Status.CheckConnection(probe)) == "Not connected"
  {
  }

  /** `updateLoginMenuItem`'s title. */
  function LoginMenuTitle(signedIn: bool): string {
    if signedIn then "Sign out" else "Login"
  }

  /** What the backup-finished message says: the count, and the plural
      text exactly when more than one item was imported. */
  datatype BackupMessage = BackupMessage(count: int, multiItem: bool)

  function BackupFinishedMessage(count: int): (m: BackupMessage)
    ensures m.count == count
    ensures m.multiItem <==> count > 1
  {
    BackupMessage(count, count > 1)
  }

  /** What a drawer menu selection does once the drawer has closed. */
  datatype PageAction =
    | CheckConnection       // probe the server and toast the outcome
    | SignOut               // sign the user out
    | OpenLogin             // start the login screen
    | Navigate(popToHome: bool, dest: Destination)

  /** The activity's fields as one value. */
  datatype ScreenState = ScreenState(
    drawerOpen: bool, drawerLocked: bool, itemSelectTask: Option<Destination>, addFabShowTask: bool,
    fabShown: bool, fabClickable: bool, addBtnTarget: Option<Destination>, snackShown: bool,
    lastSnack: Option<BackupMessage>, signedIn: bool, loginMenuTitle: string, syncScheduled: bool)

  // --------------------------------------------------------------- class

  class MainActivity {
    var drawerOpen: bool
    var drawerLocked: bool
    /** `itemSelectTask`: the menu item whose page opens when the drawer
        closes. */
    var itemSelectTask: Option<Destination>
    /** `addFabShowTask` is set. */
    var addFabShowTask: bool
    var fabShown: bool
    var fabClickable: bool
    /** Where the add button leads: none for the initial no-op listener. */
    var addBtnTarget: Option<Destination>
    var snackShown: bool
    var lastSnack: Option<BackupMessage>
    /** The auth service has a current user. */
    var signedIn: bool
    var loginMenuTitle: string
    var syncScheduled: bool
    const settingsRepository: Settings.SettingsRepository
    const localDataRepository: LocalData.LocalDataRepository

    /** After `setupView`: the add button hidden, the drawer closed, nothing
        deferred. */
    constructor(signedIn: bool, settingsRepository: Settings.SettingsRepository,
                localDataRepository: LocalData.LocalDataRepository)
      ensures !drawerOpen && !drawerLocked && itemSelectTask == None && !addFabShowTask
      ensures !fabShown && !fabClickable && addBtnTarget == None && !snackShown && lastSnack == None
      ensures this.signedIn == signedIn && loginMenuTitle == LoginMenuTitle(signedIn) && !syncScheduled
      ensures this.settingsRepository == settingsRepository && this.localDataRepository == localDataRepository
    {
      drawerOpen := false;
      drawerLocked := false;
      itemSelectTask := None;
      addFabShowTask := false;
      fabShown := false;
      fabClickable := false;
      addBtnTarget := None;
      snackShown := false;
      lastSnack := None;
      this.signedIn := signedIn;
      loginMenuTitle := LoginMenuTitle(signedIn);
      syncScheduled := false;
      this.settingsRepository := settingsRepository;
      this.localDataRepository := localDataRepository;
    }

    /** All twelve fields at once, so that a method can state its whole
        new state as an update of the old one. */
    function Screen(): ScreenState
      reads this
    {
      ScreenState(drawerOpen, drawerLocked, itemSelectTask, addFabShowTask, fabShown, fabClickable,
                  addBtnTarget, snackShown, lastSnack, signedIn, loginMenuTitle, syncScheduled)
    }

    /** `openDrawer`: the lock mode only stops the user's gesture, so the
        drawer opens even when locked. */
    method OpenDrawer()
      modifies this
      ensures drawerOpen
      ensures Screen() == old(Screen()).(drawerOpen := true)
    {
      drawerOpen := true;
    }

    /** The navigation item listener: the selection is deferred, replacing
        any earlier one, and the drawer closes. */
    method OnNavigationItemSelected(item: Destination) returns (handled: bool)
      modifies this
      ensures handled
      ensures itemSelectTask == Some(item) && !drawerOpen
      ensures Screen() == old(Screen()).(itemSelectTask := Some(item), drawerOpen := false)
    {
      itemSelectTask := Some(item);
      drawerOpen := false;
      return true;
    }

    /** `onDrawerClosed`: the deferred selection, if any, runs now and is
        dropped, so it runs once. */
    method OnDrawerClosed() returns (action: Option<PageAction>)
      modifies this
      ensures itemSelectTask == None
      ensures old(itemSelectTask).None? ==> action == None
      ensures old(itemSelectTask).Some? ==> action == Some(SelectPage(old(itemSelectTask).value, old(signedIn)))
      ensures Screen() == old(Screen()).(itemSelectTask := None)
    {
      action := None;
      if itemSelectTask.Some? {
        action := Some(SelectPage(itemSelectTask.value, signedIn));
      }
      itemSelectTask := None;
    }

    /** `onBackPressed` through `doDrawerClosure`: an open drawer is closed
        and the press goes no further; otherwise it goes on to the system. */
    method OnBackPressed() returns (passedOn: bool)
      modifies this
      ensures passedOn <==> !old(drawerOpen)
      ensures !drawerOpen
      ensures Screen() == old(Screen()).(drawerOpen := false)
    {
      if drawerOpen {
        drawerOpen := false;
        return false;
      }
      return true;
    }

    /** The destination listener: the drawer locks outside the top
        destinations; on home the add button opens the entry screen and is
        shown, elsewhere it is hidden. */
    method OnDestinationChanged(dest: Destination)
      modifies this
      ensures drawerLocked <==> !DrawerUnlocked(dest)
      ensures dest.Home? ==> addBtnTarget == Some(ExpenseEntry) && addFabShowTask
      ensures dest.Home? && !snackShown ==> fabShown && fabClickable
      ensures dest.Home? && !old(snackShown) ==>
                Screen() == old(Screen()).(drawerLocked := false, addBtnTarget := Some(ExpenseEntry),
                                           addFabShowTask := true, fabShown := true, fabClickable := true)
      ensures dest.Home? && old(snackShown) ==>
                Screen() == old(Screen()).(drawerLocked := false, addBtnTarget := Some(ExpenseEntry),
                                           addFabShowTask := true)
      ensures !dest.Home? ==>
                Screen() == old(Screen()).(drawerLocked := !DrawerUnlocked(dest), addFabShowTask := false,
                                           fabShown := false, fabClickable := false)
    {
      drawerLocked := !DrawerUnlocked(dest);
      if dest.Home? {
        addBtnTarget := Some(ExpenseEntry);
        ShowAddButton();
      } else {
        HideAddButton();
      }
    }

    /** `showAddButton`: the show task is set; it runs now, or after the
        snack bar's time when one is showing. */
    method ShowAddButton()
      modifies this
      ensures addFabShowTask
      ensures !snackShown ==> fabShown && fabClickable
      ensures !old(snackShown) ==>
                Screen() == old(Screen()).(addFabShowTask := true, fabShown := true, fabClickable := true)
      ensures old(snackShown) ==> Screen() == old(Screen()).(addFabShowTask := true)
    {
      addFabShowTask := true;
      if !snackShown {
        ShowAddFab();
      }
    }

    /** The delayed part of `showAddButton`: the show task runs only if it
        is still set, so a `hideAddButton` in between cancels it. */
    method OnShowDelayElapsed()
      modifies this
      ensures addFabShowTask == old(addFabShowTask)
      ensures addFabShowTask ==> fabShown && fabClickable
      ensures old(addFabShowTask) ==> Screen() == old(Screen()).(fabShown := true, fabClickable := true)
      ensures !old(addFabShowTask) ==> Screen() == old(Screen())
    {
      if addFabShowTask {
        ShowAddFab();
      }
    }

    method ShowAddFab()
      modifies this
      ensures fabShown && fabClickable
      ensures Screen() == old(Screen()).(fabShown := true, fabClickable := true)
    {
      fabShown := true;
      fabClickable := true;
    }

    /** `hideAddButton`: the pending show is dropped and the button hidden. */
    method HideAddButton()
      modifies this
      ensures !addFabShowTask && !fabShown && !fabClickable
      ensures Screen() == old(Screen()).(addFabShowTask := false, fabShown := false, fabClickable := false)
    {
      addFabShowTask := false;
      fabClickable := false;
      fabShown := false;
    }

    /** `showBackupFinishedMessage`: a snack bar with the count and the
        singular or plural text. */
    method ShowBackupFinishedMessage(count: int)
      modifies this
      ensures snackShown && lastSnack == Some(BackupFinishedMessage(count))
      ensures lastSnack.value.multiItem <==> count > 1
      ensures Screen() == old(Screen()).(snackShown := true, lastSnack := Some(BackupFinishedMessage(count)))
    {
      snackShown := true;
      lastSnack := Some(BackupFinishedMessage(count));
    }

    /** The snack bar's time is over. */
    method OnSnackHidden()
      modifies this
      ensures !snackShown && lastSnack == old(lastSnack)
      ensures Screen() == old(Screen()).(snackShown := false)
    {
      snackShown := false;
    }

    /** The sign-out launched from the menu, with the auth service's answer:
        only a success wipes the local tables, resets the sync time, user id
        and user name, retitles the menu and cancels the sync work. */
    method OnSignOut(result: Result<()>)
      requires localDataRepository.expenseDao.Valid()
      modifies this, settingsRepository, localDataRepository.expenseDao, localDataRepository.backupDao
      ensures localDataRepository.expenseDao.Valid()
      ensures result.Success? ==>
                && !signedIn && !syncScheduled && loginMenuTitle == "Login"
                && settingsRepository.settings ==
                     old(settingsRepository.settings).(lastSyncAt := 0, lastUserId := "", userName := "")
                && localDataRepository.expenseDao.State() == Dao.ClearAll(old(localDataRepository.expenseDao.State()))
                && localDataRepository.backupDao.rowCount == 0
      ensures result.Success? ==>
                Screen() == old(Screen()).(signedIn := false, loginMenuTitle := "Login", syncScheduled := false)
      ensures !result.Success? ==>
                && Screen() == old(Screen())
                && settingsRepository.settings == old(settingsRepository.settings)
                && localDataRepository.expenseDao.State() == old(localDataRepository.expenseDao.State())
                && localDataRepository.backupDao.rowCount == old(localDataRepository.backupDao.rowCount)
    {
      if result.Success? {
        signedIn := false;
        localDataRepository.ClearAll();
        settingsRepository.SetLastSyncAt(0);
        settingsRepository.SetLastUserId("");
        settingsRepository.SetUserName("");
        loginMenuTitle := LoginMenuTitle(signedIn);
        syncScheduled := false;
      }
    }

    /** `onResume`: retitle the menu, schedule the sync when signed in, and
        enforce the monthly re-auth with the stored `lastAuthAt`, the clock
        `now` and the answer of the forced sign-out. It answers whether the
        login screen is opened. */
    method OnResume(now: int, signOut: Result<()>) returns (openLogin: bool)
      modifies this
      ensures openLogin <==> old(signedIn) && ReauthRequired(settingsRepository.settings.lastAuthAt, now)
      ensures syncScheduled == (old(syncScheduled) || old(signedIn))
      ensures signedIn == (old(signedIn) && !(openLogin && signOut.Success?))
      ensures loginMenuTitle == LoginMenuTitle(signedIn)
      ensures Screen() == old(Screen()).(signedIn := signedIn, loginMenuTitle := LoginMenuTitle(signedIn),
                                         syncScheduled := old(syncScheduled) || old(signedIn))
    {
      loginMenuTitle := LoginMenuTitle(signedIn);
      if signedIn {
        syncScheduled := true;
      }
      openLogin := false;
      if signedIn && ReauthRequired(settingsRepository.settings.lastAuthAt, now) {
        if signOut.Success? {
          signedIn := false;
        }
        loginMenuTitle := LoginMenuTitle(signedIn);
        openLogin := true;
      }
    }
  }

  /** `selectPage`: the check item probes the server, the login item signs
      out a signed-in user and opens the login screen otherwise, and any
      other item navigates to its page, back to home first for home. */
  function SelectPage(item: Destination, signedIn: bool): (a: PageAction)
    ensures item.Check? <==> a.CheckConnection?
    ensures item.Login? ==> (a.SignOut? <==> signedIn) && (a.OpenLogin? <==> !signedIn)
    ensures !item.Check? && !item.Login? ==> a == Navigate(item.Home?, item)
  {
    if item.Check? then CheckConnection
    else if item.Login? then (if signedIn then SignOut else OpenLogin)
    else Navigate(item.Home?, item)
  }
}
