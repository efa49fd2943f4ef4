/** Raw bytes: Go's []byte, and the bytes of a Go string. */
module Bytes {

  newtype byte = b: int | 0 <= b < 256

  /**
   * The bytes of an ASCII string, as Go's []byte(s) gives them. Only ASCII
   * text is converted in this model; other characters would be reduced
   * modulo 256, where Go would give their UTF-8 encoding.
   */
  function BytesOf(s: string): (bs: seq<byte>)
    ensures |bs| == |s|
    ensures forall i :: 0 <= i < |s| && s[i] < 128 as char ==> bs[i] as int == s[i] as int
  {
    if s == [] then [] else [(s[0] as int % 256) as byte] + BytesOf(s[1..])
  }
}
