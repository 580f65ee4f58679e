/** Value types shared by the three programs of the digest service: the
    client page, the Go backend and the Python summariser. */
module Common {

  /** An optional value. It stands for a JavaScript `null`/`undefined`, a Go
      nil slice, and a JSON key that is missing or null. */
  datatype Option<T> = None | Some(value: T) {

    /** The value, or `default` when there is none (JavaScript's `x || d`
        for an array-valued `x`, Go's reading of a nil slice). */
    function GetOr(default: T): T {
      match this
      case Some(v) => v
      case None => default
    }
  }

  /** A wall-clock instant. The backend only ever stamps an article with the
      current time, which is passed in; `ZeroTime` is Go's zero `time.Time`,
      the value of a freshly bound article before it is stamped. */
  datatype Timestamp = ZeroTime | Instant(tick: int)
}
