/** Types shared by every part of the model. */
module Common {
  datatype Option<+T> = None | Some(value: T)

  /** One octet. */
  type byte = b: int | 0 <= b < 256

  type Bytes = seq<byte>
}
