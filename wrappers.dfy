/** Go's `error` is either nil or a value; `Option` stands for that and for
    the one-slot channel payloads of the runner. */
module Wrappers {

  datatype Option<+T> = None | Some(value: T)
}
