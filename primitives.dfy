/**
 * The two hash algorithms HASH160 is built from, at their interface only.
 * Their compression and padding rules are not part of this model: a
 * computation of either is a total function into digests of the right
 * length, supplied by the caller (see `Hash160.Primitives`).
 */
module Sha256 {
  import opened Bytes

  /** SHA-256 produces 32-byte digests (section 6.2 of FIPS 180-4). */
  const DIGEST_LEN: nat := 32

  /** SHA-256 processes its message in 64-byte blocks. */
  const BLOCK_SIZE: nat := 64

  type Digest = s: seq<byte> | |s| == DIGEST_LEN witness seq(DIGEST_LEN, _ => 0)

  /**
   * The streaming SHA-256 engine, seen from outside: it remembers the bytes
   * written to it so far. Its internal midstate is a function of those
   * bytes, so they are all that finalisation depends on.
   */
  class Engine {
    /** Every byte written since the engine was created, in order. */
    var data: seq<byte>

    /** A fresh engine is in the algorithm's initial state: nothing written yet. */
    constructor ()
      ensures data == []
    {
      data := [];
    }

    /** `write(buf)`: appends all of `buf` to what the engine has absorbed. */
    method Write(buf: seq<byte>)
      modifies this
      ensures data == old(data) + buf
    {
      data := data + buf;
    }
  }
}

module Ripemd160 {
  import opened Bytes

  /** RIPEMD-160 produces 20-byte digests (ISO/IEC 10118-3). */
  const DIGEST_LEN: nat := 20

  type Digest = s: seq<byte> | |s| == DIGEST_LEN witness seq(DIGEST_LEN, _ => 0)
}
