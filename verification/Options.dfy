/** A value that may be missing, and the bytes of files and images. */
module Options {
  datatype Option<+T> = None | Some(value: T)

  type byte = x: int | 0 <= x < 0x100
}
