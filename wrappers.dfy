/** The optional value used for empty callback slots, failed bus reads and absent registry entries. */
module Wrappers {

  datatype Option<+T> = None | Some(value: T)
}
