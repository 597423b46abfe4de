/** Optional values, used for every JavaScript value that may be `undefined` or `null`,
    and for every answer of an outside service that may be missing. */
module Wrappers {

  datatype Option<+T> = None | Some(value: T) {

    /** The value if present, otherwise `default`. */
    function GetOr(default: T): T {
      match this
      case Some(v) => v
      case None => default
    }
  }
}

/** An HTTP answer: a status code and a body. */
module Http {

  datatype Response<+B> = Response(status: nat, body: B)
}
