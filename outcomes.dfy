/** Option, used wherever the source can raise on a lookup (a missing
    dictionary key, an unknown note name, `max` of an empty list). */
module Outcomes {
  datatype Option<+T> = None | Some(value: T)
}
