/** Datatypes shared by every module of the project. */
module Prelude {
  datatype Option<+T> = None | Some(value: T)
}
