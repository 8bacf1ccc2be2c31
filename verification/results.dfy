/** Values shared by every adapter: optional values, results that carry a
    Kotlin throwable instead of raising it, and the throwables themselves. */
module Results {

  datatype Option<+T> = None | Some(value: T) {
    /** Kotlin's `?:` with a default. */
    function GetOr(default: T): (v: T)
      ensures this.Some? ==> v == this.value
      ensures this.None? ==> v == default
    {
      match this
      case Some(v) => v
      case None => default
    }
  }

  /** What a `suspend fun` either returns or throws. */
  datatype Result<+T> = Success(value: T) | Failure(error: Throwable)

  /** A continuation resumed with `Unit` or with an exception. */
  datatype Outcome = Pass | Fail(error: Throwable)

  /** The exception classes the adapters create or distinguish; every other
      class a library may throw is `Other` with its simple name. */
  datatype Kind =
    | Cancellation          // kotlinx.coroutines.CancellationException
    | IllegalState          // what Kotlin's error(...) throws
    | Interrupted           // java.lang.InterruptedException
    | FileNotFound          // java.io.FileNotFoundException
    | Other(simpleName: string)

  datatype Throwable = Throwable(kind: Kind, message: Option<string>, cause: Option<Throwable>)

  predicate IsCancellation(e: Throwable) {
    e.kind == Cancellation
  }

  /** `ex.javaClass.simpleName` */
  function SimpleName(k: Kind): (name: string) {
    match k
    case Cancellation => "CancellationException"
    case IllegalState => "IllegalStateException"
    case Interrupted => "InterruptedException"
    case FileNotFound => "FileNotFoundException"
    case Other(name) => name
  }

  /** Kotlin's `error(message)`. */
  function Error(message: string): (e: Throwable)
    ensures !IsCancellation(e)
  {
    Throwable(IllegalState, Some(message), None)
  }

  function CancellationException(message: string, cause: Option<Throwable>): (e: Throwable)
    ensures IsCancellation(e)
  {
    Throwable(Cancellation, Some(message), cause)
  }

  /** The largest and smallest values of a Kotlin `Int`. */
  const IntMax: int := 0x7fff_ffff
  const IntMin: int := -0x8000_0000
}
