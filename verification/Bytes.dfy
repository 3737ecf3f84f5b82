/** Bytes, and the results of operations that may fail. */
module Bytes {
  type Byte = x: int | 0 <= x < 256

  const CR: Byte := 13
  const LF: Byte := 10
  const COLON: Byte := 58

  function AsciiByte(c: char): Byte {
    if c < '\U{80}' then c as int else '?' as int
  }

  /** The bytes of an ASCII text. */
  function Ascii(text: string): (bytes: seq<Byte>)
    ensures |bytes| == |text| && forall i | 0 <= i < |text| :: bytes[i] == AsciiByte(text[i])
  {
    seq(|text|, i requires 0 <= i < |text| => AsciiByte(text[i]))
  }

  /** An I/O operation either yields a value or an error; the errors are not told apart here. */
  datatype Io<+T> = Ok(value: T) | Err
}
