/** Option: a value that may be absent (the source's `X | None`). */
module Options {
  datatype Option<+T> = None | Some(value: T) {
    function GetOr(default: T): T { if Some? then value else default }
  }
}
