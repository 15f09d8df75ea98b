/** The absent-or-present value used for JavaScript's `undefined`/`null` results
    (a failed `find`, a missing query parameter, `NaN` from `parseInt`). */
module Options {

  datatype Option<+T> = None | Some(value: T) {

    /** The value if present, otherwise `default` (JavaScript's `??` / an omitted field). */
    function GetOr(default: T): T {
      match this
      case Some(v) => v
      case None => default
    }
  }
}
