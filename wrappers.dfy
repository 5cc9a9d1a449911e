/** A PHP value that may be null: `None` stands for null (or an unset property). */
module Wrappers {

  datatype Option<+T> = None | Some(value: T)
}
