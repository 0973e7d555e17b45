/** Values shared by every part of the model. */
module Base {

  /** Ruby's `nil`-or-value, written out. */
  datatype Option<T> = None | Some(value: T)

  /** Whole seconds since the epoch, as `Time.now.to_i` yields them. */
  type Time = int
}
