/** A byte on the wire or in a buffer. */
module Bytes {
  type Byte = x: int | 0 <= x < 256
}
