/** An optional value: used for the theme, which may not be resolved yet,
    and for a search that may find nothing. */
module Wrappers {
  datatype Option<+T> = None | Some(value: T)
}
