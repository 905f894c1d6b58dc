/** Types shared by every part of the model. */
module Common {
  datatype Option<+T> = None | Some(value: T) {
    predicate IsFailure() {
      None?
    }

    function PropagateFailure<U>(): Option<U>
      requires None?
    {
      None
    }

    function Extract(): T
      requires Some?
    {
      value
    }
  }

  /** A byte of a file, an object or a message body. */
  type Byte = b: int | 0 <= b < 256

  /** The bytes of a file, an object or a message body. */
  type Content = seq<Byte>
}
