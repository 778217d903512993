/** Go's `byte`: an unsigned 8-bit integer. */
module Bytes {

  type Byte = b: int | 0 <= b < 256
}
