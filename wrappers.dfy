/** The optional-value type shared by the whole model: a SQL `NULL`, an absent query-string
    parameter, a parse that failed. */
module Wrappers {

  datatype Option<+T> = None | Some(value: T)
}
