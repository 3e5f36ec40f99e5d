/** What every module of the project shares. */
module Wrappers {
  datatype Option<+T> = None | Some(value: T)

  // What happens to a request: it takes effect and is acknowledged, it is
  // refused, or it takes effect and the acknowledgement is lost.
  datatype Fate = Delivered | Refused | Lost
}
