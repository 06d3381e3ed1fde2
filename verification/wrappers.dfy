/** Optional values: the model's counterpart of a Python keyword argument
    that defaults to None. */
module Wrappers {

  datatype Option<+T> = None | Some(value: T)

}
