/** Small value types shared by every part of the model. */
module Wrappers {

  /** A value that may be absent: JavaScript's `undefined` / a missing property. */
  datatype Option<T> = None | Some(value: T) {
    function GetOr(default: T): T {
      match this
      case Some(v) => v
      case None => default
    }

    /** This value if present, otherwise `other`: how a spread merge treats an
        optional property. */
    function OrElse(other: Option<T>): Option<T> {
      if Some? then this else other
    }
  }

  /** A list filter as the screens keep it: the string `'all'` switches it off,
      any other value selects records whose field equals it. */
  datatype Choice<T(==)> = All | Only(selected: T) {
    predicate Admits(x: T) {
      All? || selected == x
    }
  }

  /** The three traffic-light colours the screens use for thresholds
      (`text-red-600`, `text-orange-600`, `text-green-600`). */
  datatype Tone = Red | Orange | Green
}
