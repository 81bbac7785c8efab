/** What several components share. */
module Basics {

  datatype Option<+T> = None | Some(value: T)

  /** The two delivery classes; a principal has a queue for each. */
  datatype Class = Interactive | Bulk
}
