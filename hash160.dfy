/**
 * HASH160: RIPEMD-160 applied to the SHA-256 digest of the input, as used
 * by Bitcoin for public-key and script fingerprints. The output type
 * `Hash160Hash` is a 20-byte value; its engine is the SHA-256 engine
 * itself, and only finalisation adds the second stage.
 */
module Hash160 {
  import opened Bytes
  import Sha256
  import Ripemd160

  /** The fixed output length of HASH160, in bytes: that of its last stage. */
  const LEN: nat := Ripemd160.DIGEST_LEN

  type Bytes20 = s: seq<byte> | |s| == LEN witness seq(LEN, _ => 0)

  /**
   * The output of HASH160: exactly 20 bytes, compared byte for byte
   * (the derived `PartialEq`/`Eq`). There is no ordering on it.
   */
  datatype Hash160Hash = Hash160Hash(bytes: Bytes20)

  /** The library's error kind; only the raw-bytes constructor raises it. */
  datatype Error = InvalidLength(expected: nat, actual: nat)

  datatype Result<T> = Ok(value: T) | Err(error: Error)

  /**
   * The two external algorithms HASH160 drives: one-shot SHA-256 of a
   * message (what finalising a SHA-256 engine yields) and one-shot
   * RIPEMD-160. Their types fix only their digest lengths.
   */
  datatype Primitives = Primitives(
    sha256: seq<byte> -> Sha256.Digest,
    ripemd160: seq<byte> -> Ripemd160.Digest)

  /** `engine()`: a fresh SHA-256 engine in its initial state. */
  method Engine() returns (e: Sha256.Engine)
    ensures fresh(e)
    ensures e.data == []
  {
    e := new Sha256.Engine();
  }

  /**
   * `from_engine(e)`: finalise the SHA-256 engine, hash its 32-byte digest
   * once with RIPEMD-160, and copy those 20 bytes into the output.
   */
  method FromEngine(p: Primitives, e: Sha256.Engine) returns (h: Hash160Hash)
    ensures h.bytes == p.ripemd160(p.sha256(e.data))
  {
    var sha2 := p.sha256(e.data);
    var rmd := p.ripemd160(sha2);
    var ret := new byte[LEN];
    CopyFromSlice(ret, rmd);
    h := Hash160Hash(ret[..]);
  }

  /** `len()`: the number of bytes in every HASH160 output. */
  function Len(): (n: nat)
    ensures n == Ripemd160.DIGEST_LEN
    ensures forall h: Hash160Hash :: |h.bytes| == n
  {
    LEN
  }

  /** `block_size()`: the block size of the first stage, SHA-256. */
  function BlockSize(): (n: nat)
    ensures n == Sha256.BLOCK_SIZE
  {
    64
  }

  /**
   * `from_slice(sl)`: accepts exactly `Len()` bytes and copies them into an
   * output unchanged; any other length is an `InvalidLength` error carrying
   * the expected and the actual length. The content is not checked.
   */
  method FromSlice(sl: seq<byte>) returns (r: Result<Hash160Hash>)
    ensures r.Ok? <==> |sl| == Len()
    ensures r.Err? ==> r.error == InvalidLength(Len(), |sl|)
    ensures r.Ok? ==> r.value.bytes == sl
  {
    if |sl| != LEN {
      r := Err(InvalidLength(Len(), |sl|));
    } else {
      var ret := new byte[LEN];
      CopyFromSlice(ret, sl);
      r := Ok(Hash160Hash(ret[..]));
    }
  }

  /**
   * `h[i]`: read-only access to byte `i` of an output. An index at or past
   * `Len()` is out of bounds (Rust panics), so callers must avoid it.
   */
  function At(h: Hash160Hash, i: nat): (b: byte)
    requires i < Len()
    ensures b == h.bytes[i]
  {
    h.bytes[i]
  }

  /** `h[..]`: the output's bytes as a slice, byte `i` being `h[i]`. */
  function Slice(h: Hash160Hash): (s: seq<byte>)
    ensures |s| == Len()
    ensures forall i | 0 <= i < Len() :: s[i] == At(h, i)
  {
    h.bytes
  }

  /**
   * `hash(data)`: the one-shot form, which feeds all of `data` to a fresh
   * engine and finalises it.
   */
  method Hash(p: Primitives, data: seq<byte>) returns (h: Hash160Hash)
    ensures h.bytes == p.ripemd160(p.sha256(data))
  {
    var e := Engine();
    e.Write(data);
    assert e.data == data;
    h := FromEngine(p, e);
  }
}
