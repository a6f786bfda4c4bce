/** Optional values. A Go `error` may be `nil`; the model writes it as `Option<Error>`. */
module Wrappers {

  datatype Option<+T> = None | Some(value: T)
}
