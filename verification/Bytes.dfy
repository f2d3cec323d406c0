/** Bytes; a Go string is a sequence of them. */
module Bytes {
  type Byte = b: int | 0 <= b < 0x100

  /** The bytes of a text in ASCII. */
  function Ascii(text: string): seq<Byte>
    requires forall i :: 0 <= i < |text| ==> text[i] as int < 0x80
  {
    seq(|text|, i requires 0 <= i < |text| => text[i] as int)
  }
}
