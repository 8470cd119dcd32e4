/** The wrappers the app passes around: Kotlin's nullable values, the app's
    own `Result` (success, error or loading) and the outcome of a call into
    code outside the model (the network, the platform) that may throw. */
module Results {

  /** A Kotlin nullable value. */
  datatype Option<+T> = None | Some(value: T) {
    /** Kotlin's `?:` with a default. */
    function GetOr(default: T): T {
      if Some? then value else default
    }
  }

  /** A thrown exception; only its (nullable) message is observable. */
  datatype Exception = Exception(message: Option<string>)

  /** `com.arduia.expense.model.Result`: Success, Error or Loading. */
  datatype Result<+T> = Success(data: T) | Error(exception: Exception) | Loading

  /** The outcome of a call the model does not see into: it returns or throws. */
  datatype Call<+T> = Returned(value: T) | Threw(exception: Exception)

  /** An exception carrying the given message. */
  function Failure(message: string): (e: Exception)
    ensures e.message == Some(message)
  {
    Exception(Some(message))
  }
}
