/** Values shared by the model of the BLE session layer and its sensor client. */
module Base {

  datatype Option<+T> = None | Some(value: T)

  datatype Result<+T, +E> = Ok(value: T) | Err(error: E)

  /** One octet of an attribute value. */
  newtype byte = x: int | 0 <= x < 256

  /** A Python `bytes` value. */
  type Bytes = seq<byte>

  /** The Python exceptions the core raises or lets through. */
  datatype Exc =
    | BTLEException(reason: string)  // any failure reported by the bluepy stack
    | AttributeError                 // a peripheral method looked up on `None`
    | RuntimeError                   // releasing a lock that is not held
    | ValueError                     // `float()` given text that is not a number
    | TypeError                      // `ord()` given more than one byte
    | OtherException(name: string)   // any other exception escaping a stack call
}
