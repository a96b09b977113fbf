/** Kotlin's nullable `T?`, used wherever the source holds or returns something that may be null. */
module Wrappers {

  datatype Option<+T> = None | Some(value: T)
}
