/** How an operation of the script ends, and what it leaves in the log. */
module Effects {

  /** The exceptions this layer raises; each carries its message. */
  datatype Error = KeyError(message: string)

  /** Python's "return a value or raise". */
  datatype Result<T> = Ok(value: T) | Raised(error: Error)

  datatype Option<T> = None | Some(value: T)

  /** One call of an operation: the log lines it appends, in order, and how
      it ends. */
  datatype Step<T> = Step(written: seq<string>, result: Result<T>)
}
