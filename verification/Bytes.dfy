/** Bytes, and the two orders in which this project reads them. */
module Bytes {
  type Byte = b: int | 0 <= b < 256

  type Data = seq<Byte>
}
