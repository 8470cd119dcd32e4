/** The four settings the sign-in, sync and re-auth code read and write,
    kept by `SettingsRepository` as a plain record. */
module Settings {

  /** `lastUserId`, `lastSyncAt`, `userName` and `lastAuthAt`. */
  datatype Settings = Settings(lastUserId: string, lastSyncAt: int, userName: string, lastAuthAt: int)

  /** The settings store; each setter overwrites one field. */
  class SettingsRepository {
    var settings: Settings

    constructor(initial: Settings)
      ensures settings == initial
    {
      settings := initial;
    }

    /** `setLastSyncAt`. */
    method SetLastSyncAt(timeMillis: int)
      modifies this
      ensures settings == old(settings).(lastSyncAt := timeMillis)
    {
      settings := settings.(lastSyncAt := timeMillis);
    }

    /** `setLastAuthAt`. */
    method SetLastAuthAt(timeMillis: int)
      modifies this
      ensures settings == old(settings).(lastAuthAt := timeMillis)
    {
      settings := settings.(lastAuthAt := timeMillis);
    }

    /** `setLastUserId`. */
    method SetLastUserId(userId: string)
      modifies this
      ensures settings == old(settings).(lastUserId := userId)
    {
      settings := settings.(lastUserId := userId);
    }

    /** `setUserName`. */
    method SetUserName(name: string)
      modifies this
      ensures settings == old(settings).(userName := name)
    {
      settings := settings.(userName := name);
    }
  }
}
