/** The optional value shared by the PHP and JavaScript layers of the model. */
module Wrappers {
  datatype Option<T> = None | Some(value: T)
}
