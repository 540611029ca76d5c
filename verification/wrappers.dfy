/** The absent-or-present wrapper used wherever the dashboard's code uses `null` for "nothing". */
module Wrappers {

  datatype Option<+T> = None | Some(value: T)
}
