module Wrappers {
  datatype Option<+T> = None | Some(value: T)

  /** How a database or Redis call ends: Lost means that it took effect but was reported as failed. */
  datatype Outcome = Done | Failed | Lost
}
