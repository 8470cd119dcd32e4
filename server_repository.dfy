/** `ProExpenseServerRepositoryImpl`: the update rule and the version
    status, over the values read from the remote config. JSON parsing and
    the config reads enter as their outcomes; the version types are type
    parameters. */
module Server {
  import opened Results
  import opened Text

  /** `CheckUpdateDto.Response`. */
  datatype CheckUpdateResponse<V> = CheckUpdateResponse(isShouldUpdate: bool, isCriticalUpdate: bool, versionInfo: V)

  /** What `getAboutUpdateSync` reads: `min_version`, `critical_version`,
      and `about_new_version_info` once parsed. */
  datatype UpdateConfig<V> = UpdateConfig(minVersion: int, criticalVersion: int, versionInfo: V)

  /** `getAboutUpdateSync`: an update is due up to and including the minimum
      version, and critical up to and including the critical version,
      whatever the minimum; the parsed info is passed on as it is; a read or
      parse failure is an error carrying the exception. */
  function GetAboutUpdateSync<V>(currentVersion: int, config: Call<UpdateConfig<V>>): (r: Result<CheckUpdateResponse<V>>)
    ensures config.Threw? ==> r == Error(config.exception)
    ensures config.Returned? ==> r.Success? && r.data.versionInfo == config.value.versionInfo
    ensures config.Returned? ==> (r.data.isShouldUpdate <==> currentVersion <= config.value.minVersion)
    ensures config.Returned? ==> (r.data.isCriticalUpdate <==> currentVersion <= config.value.criticalVersion)
  {
    match config
    case Threw(e) => Error(e)
    case Returned(c) =>
      if currentVersion <= c.minVersion then
        Success(CheckUpdateResponse(true, currentVersion <= c.criticalVersion, c.versionInfo))
      else
        Success(CheckUpdateResponse(false, currentVersion <= c.criticalVersion, c.versionInfo))
  }

  /** Raising the minimum version never withdraws a due update, and the
      critical flag does not depend on it. */
  lemma MinVersionMonotone<V>(currentVersion: int, c: UpdateConfig<V>, higherMin: int)
    requires c.minVersion <= higherMin
    ensures var r1 := GetAboutUpdateSync(currentVersion, Returned(c));
            var r2 := GetAboutUpdateSync(currentVersion, Returned(c.(minVersion := higherMin)));
            (r1.data.isShouldUpdate ==> r2.data.isShouldUpdate) &&
            r1.data.isCriticalUpdate == r2.data.isCriticalUpdate && r1.data.versionInfo == r2.data.versionInfo
  {
  }

  /** `getVersionStatus` for the `version_info` string and the outcome of
      parsing it: a blank string emits nothing; a parse failure emits
      nothing either, since the `catch` builds an error without emitting
      it. */
  function GetVersionStatus<V>(info: string, parsed: Call<V>): (emitted: Option<Result<V>>)
    ensures emitted.Some? <==> !IsBlank(info) && parsed.Returned?
    ensures emitted.Some? ==> emitted.value == Success(parsed.value)
  {
    if IsBlank(info) then None
    else match parsed
      case Returned(v) => Some(Success(v))
      case Threw(_) => None
  }
}
