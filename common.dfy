/** Values shared by every part of the model. */
module Common {

  /** An optional value; usable with `:-` in expressions. */
  datatype Option<T> = None | Some(value: T) {
    predicate IsFailure() { None? }

    function PropagateFailure<U>(): Option<U>
      requires None?
    {
      None
    }

    function Extract(): T
      requires Some?
    {
      value
    }
  }

  /** What an external tool gave back: its output, or the message of the error it raised. */
  datatype Result<T> = Ok(value: T) | Err(message: string)

  /** The two device back-ends. */
  datatype Platform = IOS | Android

  /** A width and a height in device-native units (iOS logical points, Android pixels). */
  datatype Size = Size(width: int, height: int)

  /** Raw bytes of an image or a video; their base64 form is treated as opaque. */
  type Blob = seq<bv8>
}
