/** The nullable state values of the pages (`useState<T | null>(null)`). */
module Wrappers {
  datatype Option<T> = None | Some(value: T)
}
