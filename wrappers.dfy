/** An optional value: `None` where the script would have nothing (or would raise). */
module Wrappers {

  datatype Option<+T> = None | Some(value: T)
}
