/** The optional values the model needs: a parse that may fail, an image that may be absent,
    a storage key that may be unset. */
module Wrappers {

  datatype Option<+T> = None | Some(value: T)
}
