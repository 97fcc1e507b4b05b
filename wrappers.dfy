/** Small value wrappers shared by the whole model. */
module Wrappers {

  /** A value that may be absent: a nullable column, or a lookup that finds nothing. */
  datatype Option<+T> = None | Some(value: T)

  /** A key of a JSON object or of a partial record: either left out, or given with a value.
      Left out and given-as-null are different things for a column with a default. */
  datatype Field<+T> = Omitted | Given(value: T) {

    /** The given value, or `default` when the key was left out. */
    function Or(default: T): T {
      if Given? then value else default
    }
  }

  /** The outcome of an operation that can fail. */
  datatype Result<+T, +E> = Ok(value: T) | Err(error: E)
}
