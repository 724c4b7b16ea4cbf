/** Kotlin's nullable results (`T?`) as a value. */
module Wrappers {

  datatype Option<+T> = None | Some(value: T)

}
