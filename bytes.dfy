/** Bytes, byte strings and the slice copy that the hash outputs are built with. */
module Bytes {

  /** An unsigned 8-bit integer (Rust's `u8`). */
  newtype byte = x: int | 0 <= x < 0x100

  /**
   * `dst.copy_from_slice(src)`: overwrites every element of `dst` with the
   * element of `src` at the same index. The slices must have the same
   * length (Rust panics otherwise), so that is what callers must ensure.
   */
  method CopyFromSlice(dst: array<byte>, src: seq<byte>)
    requires dst.Length == |src|
    modifies dst
    ensures dst[..] == src
  {
    forall i | 0 <= i < dst.Length {
      dst[i] := src[i];
    }
  }
}
