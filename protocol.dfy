/** The two-outcome control protocol shared by every handler, and the
    Option/Result wrappers the Rust code uses for its return values. */
module Protocol {

  /** `std::ops::ControlFlow`: `Break` ends a handler chain with a final
      answer, `Continue` passes its payload on to the next handler. */
  datatype ControlFlow<B, C> = Break(output: B) | Continue(rest: C)

  datatype Option<T> = None | Some(value: T)

  datatype Result<T, E> = Ok(value: T) | Err(error: E)
}
