/** Optional values and results with an error message, for Java's null and exceptions. */
module Wrappers {

  datatype Option<T> = None | Some(value: T)

  /** `Err` stands for an exception the Java code throws; `error` names it. */
  datatype Result<T> = Ok(value: T) | Err(error: string)
}
