/** Bytes, optional values and the value-level meaning of `memcpy`. */
module Bytes {

  /** An unsigned 8-bit value (`uint8_t` / `char` in the attester). */
  newtype byte = x: int | 0 <= x < 256

  /** A possibly-absent value; `None` stands for a NULL pointer. */
  datatype Option<+T> = None | Some(value: T)

  /** `n` zero bytes. */
  function Zeros(n: nat): (r: seq<byte>)
    ensures |r| == n
    ensures forall i :: 0 <= i < n ==> r[i] == 0
  {
    seq(n, _ => 0)
  }

  /** The buffer `buf` after `memcpy(&buf[off], src, |src|)`: the bytes at
      `[off, off + |src|)` become `src` and every other byte stays put. */
  function Copy(buf: seq<byte>, off: nat, src: seq<byte>): (r: seq<byte>)
    requires off + |src| <= |buf|
    ensures |r| == |buf|
    ensures r[off..off + |src|] == src
    ensures forall i :: 0 <= i < |buf| && !(off <= i < off + |src|) ==> r[i] == buf[i]
  {
    buf[..off] + src + buf[off + |src|..]
  }
}
