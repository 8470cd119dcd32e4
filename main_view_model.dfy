/** `MainViewModel`: the force-upgrade state and the caching of the
    selected currency number. The mapped about-update info is a type
    parameter, since its fields play no part here. */
module Main {
  import opened Results
  import Currency

  /** `Pair<Boolean, AboutUpdateUiModel?>`. */
  datatype ForceUpgrade<U> = ForceUpgrade(force: bool, info: Option<U>)

  class MainViewModel<U> {
    var forceUpgradeState: ForceUpgrade<U>
    const currencyRepo: Currency.CurrencyRepositoryImpl
    /** `UpdateStatusDataModel.STATUS_FORCE_UPGRADE`. */
    const statusForceUpgrade: int

    /** Upgrading is off by default. */
    constructor(currencyRepo: Currency.CurrencyRepositoryImpl, statusForceUpgrade: int)
      ensures forceUpgradeState == ForceUpgrade(false, None)
      ensures this.currencyRepo == currencyRepo && this.statusForceUpgrade == statusForceUpgrade
    {
      forceUpgradeState := ForceUpgrade(false, None);
      this.currencyRepo := currencyRepo;
      this.statusForceUpgrade := statusForceUpgrade;
    }

    /** One emission of `getUpdateStatus` as `observeForceUpgrade` handles
        it. Only a success is acted on. A forced upgrade posts the mapped
        info that `getAboutUpdateSync().getDataOrError()` gives after the
        delay, `info`; when that call throws nothing is posted. Any other
        status turns upgrading off. */
    method OnUpdateStatus(status: Result<int>, info: Call<U>)
      modifies this
      ensures !status.Success? ==> forceUpgradeState == old(forceUpgradeState)
      ensures status.Success? && status.data != statusForceUpgrade ==>
                forceUpgradeState == ForceUpgrade(false, None)
      ensures status.Success? && status.data == statusForceUpgrade && info.Returned? ==>
                forceUpgradeState == ForceUpgrade(true, Some(info.value))
      ensures status.Success? && status.data == statusForceUpgrade && info.Threw? ==>
                forceUpgradeState == old(forceUpgradeState)
      ensures forceUpgradeState.force ==> forceUpgradeState.info.Some? || old(forceUpgradeState).force
    {
      match status {
        case Success(s) =>
          if s == statusForceUpgrade {
            if info.Returned? {
              forceUpgradeState := ForceUpgrade(true, Some(info.value));
            }
          } else {
            forceUpgradeState := ForceUpgrade(false, None);
          }
        case Error(_) =>
        case Loading =>
      }
    }

    /** One emission of `getSelectedCurrencyNumber` as
        `observeAndCacheSelectedCurrency` handles it: only a success is
        cached, as the emitted number. */
    method OnSelectedCurrencyNumber(number: Result<string>)
      modifies currencyRepo
      ensures currencyRepo.currencyList == old(currencyRepo.currencyList)
      ensures number.Success? ==> currencyRepo.cacheNumber == number.data
      ensures !number.Success? ==> currencyRepo.cacheNumber == old(currencyRepo.cacheNumber)
    {
      if number.Success? {
        currencyRepo.SetSelectedCacheCurrency(number.data);
      }
    }
  }
}
