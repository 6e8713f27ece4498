/** The optional value used for a token's `loc`/`range` and for the host's `lex` result. */
module Wrappers {
  datatype Option<+T> = None | Some(value: T)
}
