/** Values that stand for what the database library hands back: a result, or
    the error object its native call throws. */
module Outcomes {

  datatype Option<+T> = None | Some(value: T)

  /** An Error object thrown by the native library; the plugin reads only
      its message. */
  datatype DbError = DbError(message: string)

  /** The outcome of one call: a returned value, or a thrown error. */
  datatype Outcome<+T> = Ok(value: T) | Err(error: DbError)
}
