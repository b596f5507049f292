/** What the modules of this project share. */
module Wrappers {

  datatype Option<+T> = None | Some(value: T)

  /** The longest envelope list of a rotation, checked when it is parsed and when its row is
      stored. */
  const MAX_ROTATION_ENVELOPES := 128
}
