/** Bytes, and what a system call made of a request to read or write them. */
module Bytes {

  type Byte = x: int | 0 <= x < 256

  type Errno = int

  /** Outcome of read(2) on a descriptor: `arrived` is what the kernel has for it. */
  datatype Readable = Arrived(bytes: seq<Byte>) | ReadFails(errno: Errno)
}
