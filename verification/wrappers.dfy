/** Failure-carrying values shared by the model. Every error in the command is
    turned into its message string (`map_err(|e| e.to_string())`), so `Result`
    carries a `string` on failure. */
module Wrappers {

  datatype Option<+T> = None | Some(value: T)

  datatype Result<+T> = Ok(value: T) | Err(msg: string)

  /** The outcome of a foreign call whose success carries nothing the model uses. */
  datatype Outcome = Pass | Fail(msg: string)
}
