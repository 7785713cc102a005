/** Python's optional dictionary entries and raised exceptions, as values. */
module Results {

  /** A dictionary entry that may be missing. */
  datatype Option<+T> = None | Some(value: T) {
    /** `d.get(key, default)` */
    function GetOr(default: T): T {
      match this
      case Some(v) => v
      case None => default
    }
  }

  /** The exceptions the modelled code can raise. */
  datatype Exception = IndexError | KeyError(key: string)

  /** A computation that either returns a value or raises. */
  datatype Result<+T> = Ok(value: T) | Raise(exc: Exception) {
    predicate IsFailure() {
      Raise?
    }

    function PropagateFailure<U>(): Result<U>
      requires Raise?
    {
      Raise(exc)
    }

    function Extract(): T
      requires Ok?
    {
      value
    }
  }

  /** `d[key]` on a dictionary entry: the value, or KeyError when the key is missing. */
  function Lookup<T>(entry: Option<T>, key: string): (r: Result<T>)
    ensures r.Ok? <==> entry.Some?
    ensures r.Ok? ==> r.value == entry.value
    ensures r.Raise? ==> r.exc == KeyError(key)
  {
    match entry
    case Some(v) => Ok(v)
    case None => Raise(KeyError(key))
  }
}
