/** Shared vocabulary: optional values and raw bytes. */
module Common {

  /** A value that may be missing (Go's nil). */
  datatype Option<+T> = None | Some(value: T)

  /** One octet of a payload; Go's `byte`. */
  newtype byte = b: int | 0 <= b < 256

  /** The byte that encodes an ASCII character. */
  function Ascii(c: char): byte
    requires c as int < 128
  {
    c as int as byte
  }
}
