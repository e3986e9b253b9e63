/** The optional value used where the C++ code works with a nullable pointer or a failed lookup. */
module Options {
  datatype Option<+T> = None | Some(value: T) {
    function GetOr(default: T): T {
      if Some? then value else default
    }
  }
}
