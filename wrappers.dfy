/** The optional value that the lexer hands back on each pull. */
module Wrappers {

  datatype Option<+T> = None | Some(value: T)
}
