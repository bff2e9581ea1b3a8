/** Kotlin's nullable values (`Int?`, the result of `find`) as an Option. */
module Wrappers {

  datatype Option<+T> = None | Some(value: T)
}
