/** What the generator's nullable pointers and optionals become. */
module Wrappers {
  datatype Option<+T> = None | Some(value: T)
}
