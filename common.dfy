/** Value wrappers shared by the model: JavaScript's `null`/`undefined`
    become `Option`, a thrown error becomes `Result.Failure`, and the outcome
    of one promise inside `Promise.allSettled` becomes `Settled`. */
module Common {

  datatype Option<+T> = None | Some(value: T) {
    function GetOr(default: T): T {
      match this
      case Some(v) => v
      case None => default
    }
  }

  datatype Result<+R, +E> = Success(value: R) | Failure(error: E)

  /** The outcome of one promise once it has settled. */
  datatype Settled<+T> = Fulfilled(value: T) | Rejected

  /** `r.status === 'fulfilled' ? r.value : []` */
  function OrEmpty<T>(r: Settled<seq<T>>): (s: seq<T>)
    ensures r.Rejected? ==> s == []
  {
    match r
    case Fulfilled(v) => v
    case Rejected => []
  }

  /** `r.status === 'fulfilled' ? r.value : null` */
  function OrNull<T>(r: Settled<Option<T>>): (o: Option<T>)
    ensures r.Rejected? ==> o == None
  {
    match r
    case Fulfilled(v) => v
    case Rejected => None
  }
}
