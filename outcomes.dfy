/** Option and Result values shared by the modules of the storefront model. */
module Outcomes {

  /** A value that may be absent: `undefined` or `null` in the storefront. */
  datatype Option<+T> = None | Some(value: T)

  /** The outcome of an operation that may throw an `Error` with a message. */
  datatype Result<+T> = Ok(value: T) | Err(message: string)

  /** An optional string read as a condition: present and non-empty. */
  predicate Truthy(s: Option<string>) { s.Some? && s.value != "" }
}
