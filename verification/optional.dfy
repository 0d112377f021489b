/** The Some/None wrapper used for the nullable fields of the source's
    dictionaries (`tx['to']`, `receipt['contractAddress']`) and for lookups
    that may fail. */
module Optional {

  datatype Option<+T> = None | Some(value: T) {

    /** The wrapped value, or `default` when there is none. */
    function GetOr(default: T): T
    {
      match this
      case Some(v) => v
      case None => default
    }
  }
}
