/** The conventional optional value, used where the model has no answer to give. */
module Options {
  datatype Option<T> = None | Some(value: T)
}
