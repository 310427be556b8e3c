/** The success-or-error value that the modelled code returns where the Rust
    code returns a `Result`. */
module Results {

  datatype Result<+T, +E> = Ok(value: T) | Err(error: E)
}
