/** Option, for the nullable view-state fields (`Note | null`) and storage reads. */
module Wrappers {
  datatype Option<+T> = None | Some(value: T)
}
