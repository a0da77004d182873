# HASH160 output type, modelled in Dafny

HASH160 is Bitcoin's two-stage digest: SHA-256 of the input, then RIPEMD-160
of that 32-byte digest, giving a 20-byte output. The Rust type
`Hash160Hash` wraps those 20 bytes and implements the library's `Hash`
contract:

- `engine()` gives a streaming engine, which is simply the SHA-256 engine;
- `from_engine` finalises it and applies the second stage;
- `from_slice` rebuilds an output from raw bytes of the right length;
- `len()` is 20 and `block_size()` is 64.

This model covers that type and the engine test that goes with it.

Files and modules:

- `bytes.dfy`, module `Bytes`: the `byte` type and `CopyFromSlice`, which is
  Rust's `copy_from_slice` on a fixed array. The method fills the array in
  place. Its precondition is that the lengths are equal; Rust panics when
  they are not.
- `primitives.dfy`, modules `Sha256` and `Ripemd160`: the two external
  algorithms, at their interface only. Each has its digest length as a
  subset type. SHA-256 also has its block size and its streaming `Engine`.
  The engine is a class whose state is the byte sequence written so far,
  and `Write` appends to it.
- `hash160.dfy`, module `Hash160`: the output type, the error type and the
  operations of `src/hash160.rs`. The SHA-256 and RIPEMD-160 computations
  are a caller-supplied `Primitives` value holding two total functions.
  Their result types fix the digest lengths at 32 and 20 bytes, and nothing
  else is assumed about them.
- `streaming.dfy`, module `Hash160Streaming`: the behaviour the test relies
  on. Writing byte by byte, or in any chunking, gives the same output as
  one-shot `hash`. An engine that receives no writes finalises to HASH160
  of the empty message. An output rebuilt from its own bytes with
  `from_slice` is the same output.

`Hash160Hash` derives only `PartialEq` and `Eq` (src/hash160.rs:27), so
the model has byte-for-byte equality (through the datatype) and no
ordering.

## Model

| member | source | states |
|---|---|---|
| Bytes.CopyFromSlice | src/hash160.rs:46-47 | after the copy the 20-byte array holds exactly the source slice; the lengths must match (the `copy_from_slice` panic condition) |
| Sha256.Engine.constructor | src/hash160.rs:38-40 | a fresh engine is in the initial state, with nothing absorbed |
| Sha256.Engine.Write | src/hash160.rs:117-120 | a write appends exactly the written bytes to what the engine has absorbed |
| Hash160.Engine | src/hash160.rs:38-40 | `engine()` returns a newly allocated SHA-256 engine in its initial, empty state |
| Hash160.FromEngine | src/hash160.rs:42-49 | the output bytes are RIPEMD-160 of SHA-256 of the bytes written to the engine, copied unchanged |
| Hash160.Len | src/hash160.rs:51-53 | `len()` is the RIPEMD-160 digest length (20), and every output has exactly that many bytes |
| Hash160.BlockSize | src/hash160.rs:55-57 | `block_size()` is SHA-256's block size (64), whatever data is hashed |
| Hash160.FromSlice | src/hash160.rs:59-67 | succeeds exactly when the slice has `len()` bytes; otherwise the error is `InvalidLength(len(), actual length)`; on success the output holds the slice's bytes verbatim, with no content check |
| Hash160.At | src/hash160.rs:33 | `h[i]` (from `index_impl!`) is byte `i` of the output, for every index below `len()`; other indices are out of bounds |
| Hash160.Slice | src/hash160.rs:33 | `h[..]` (from `index_impl!`, used at line 113) has exactly `len()` bytes and byte `i` of it is `h[i]` |
| Hash160.Hash | src/hash160.rs:111 | one-shot `hash(data)` is RIPEMD-160 of SHA-256 of `data` |
| Hash160Streaming.ConcatAppend | src/hash160.rs:116-121 | helper for the invariant of the `HashChunks` write loop: appending one chunk to a chunk sequence extends its concatenation by exactly that chunk |
| Hash160Streaming.HashByteByByte | src/hash160.rs:116-121 | writing the input one byte at a time and then finalising gives RIPEMD-160 of SHA-256 of the whole input |
| Hash160Streaming.HashChunks | src/hash160.rs:116-121 | writing any sequence of chunks and then finalising gives HASH160 of their concatenation, so chunk boundaries never change the result |
| Hash160Streaming.CheckStreamingAgrees | src/hash160.rs:109-122 | the byte-by-byte engine result equals the one-shot `hash` result for every input |
| Hash160Streaming.HashEmpty | src/hash160.rs:38-49 | an engine finalised with no writes gives the fixed digest RIPEMD-160(SHA-256 of the empty message) |
| Hash160Streaming.Reparse | src/hash160.rs:112-113 | rebuilding any output from its own slice with `from_slice` succeeds and gives the same output |

## Left out

- SHA-256 and RIPEMD-160 internals (compression, padding, length encoding).
  Their modules are not part of this model. They appear only as total
  functions with 32- and 20-byte results.
- src/lib.rs is not part of this model. It holds the `Hash` trait and its
  provided one-shot `hash`. `Hash160.Hash` does what the trait's provided
  `hash` does: write all the data to a fresh engine, then finalise.
- Consumption of the engine by `from_engine`: Rust moves the engine, so it
  cannot be reused. `Hash160.FromEngine` only reads the engine, and it does
  not model this use-once rule.
- The `io::Result` that `write` returns and its error path: writing to an
  engine held in memory always absorbs every byte.
- Hex formatting (`Debug`, `Display`, `LowerHex`) and `from_hex`/`to_hex`,
  together with the hex round trip. The hex utilities are outside this
  model.
- `index_impl!` is modelled only as plain read-only access: `Hash160.At`
  for one byte and `Hash160.Slice` for the full range. No other range
  forms are modelled.
- The concrete test vector (the 65-byte public key and its 20-byte
  HASH160). It cannot be checked while the two primitives are left
  abstract.
- The benchmarks, which measure only speed.
