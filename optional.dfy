/** An optional value: a TypeScript `T | undefined`, a `?:` property or a `T | null` result. */
module Optional {

  datatype Option<T> = None | Some(value: T) {

    /** `x ?? d`: the value, or the default when it is absent. */
    function GetOr(default: T): T {
      if Some? then value else default
    }
  }
}
