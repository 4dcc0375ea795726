/** A value that may be absent: the model of a JavaScript value that may be `undefined`. */
module Options {

  datatype Option<+T> = None | Some(value: T) {

    /** JavaScript's `a ?? b` on two possibly-absent values: this one when present, otherwise `other`. */
    function OrElse(other: Option<T>): Option<T> {
      if Some? then this else other
    }

    /** JavaScript's `a ?? d` with a fallback that is always present. */
    function GetOr(default: T): T {
      if Some? then value else default
    }
  }
}
