/** Option and Result: the model's stand-ins for `null`/`undefined` and for thrown errors. */
module Wrappers {

  datatype Option<+T> = None | Some(value: T)

  datatype Result<+T, +E> = Ok(value: T) | Err(error: E)
}

/** Node's `Buffer`: a sequence of bytes. */
module Buffers {
  newtype byte = b: int | 0 <= b < 256

  type Buffer = seq<byte>

  /** 1024 * 1024 bytes. */
  const MiB := 1048576
}
