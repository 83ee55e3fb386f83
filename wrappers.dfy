/** The optional value that Kotlin expresses with nullable types (`Int?`). */
module Wrappers {

  datatype Option<+T> = None | Some(value: T)

}
