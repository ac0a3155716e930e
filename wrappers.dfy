/** The optional result used where the original engine reports a label or "N/A". */
module Wrappers {

  datatype Option<+T> = None | Some(value: T)
}
