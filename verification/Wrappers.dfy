/** Stock types and tests: a value that may be missing, a call that may raise, text that is not blank. */
module Wrappers {

  datatype Option<+T> = None | Some(value: T)

  datatype Result<+T, +E> = Ok(value: T) | Err(error: E)

  /** Something is left when spaces are trimmed. */
  predicate NotBlank(s: string) {
    exists i | 0 <= i < |s| :: s[i] != ' '
  }
}
