/** Failure values for the exceptions the oscilloscope client raises or lets escape. */
module Results {

  /** The exception kinds the modelled code can end in. */
  datatype Error =
    | ValueError        // bad literal for int()/float(), tuple unpacking of the wrong length, invalid channel
    | KeyError          // lookup in one of the closed code tables failed
    | IndexError        // indexing past the end of a string or list
    | TypeError         // comparison of a float version with a tuple threshold, shift of float samples
    | AttributeError    // a method the class does not define
    | UnboundLocal      // a local variable read before any branch assigned it
    | RuntimeError      // explicitly raised by the decoder
    | StructError       // struct.unpack given a buffer of the wrong length
    | ZeroDivision      // division by a zero increment
    | IoTimeout         // the transport timed out
    | IoOther           // any other transport error
    | ProcessExit       // the block transfers call exit(1) on a transport error

  datatype Option<+T> = None | Some(value: T)

  datatype Result<+T> = Ok(value: T) | Err(error: Error) {
    predicate IsFailure() { Err? }
    function PropagateFailure<U>(): Result<U>
      requires Err?
    {
      Err(error)
    }
    function Extract(): T
      requires Ok?
    {
      value
    }
  }
}
