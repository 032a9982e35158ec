/** Types shared by every module of the model. */
module Prelude {

  datatype Option<+T> = None | Some(value: T)

  datatype Result<+T, +E> = Ok(value: T) | Err(error: E)

  /** One octet of a request body, a header value or a decoded payload. */
  newtype byte = b: int | 0 <= b < 0x100

  type Bytes = seq<byte>

  function Bit(b: bool): nat { if b then 1 else 0 }

  lemma Associate<T>(a: seq<T>, b: seq<T>, c: seq<T>)
    ensures a + (b + c) == (a + b) + c
  {
  }
}
