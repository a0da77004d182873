/**
 * What the HASH160 engine promises across calls: chunk boundaries do not
 * matter (byte-by-byte streaming agrees with one-shot `hash`), an empty
 * engine finalises to the digest of the empty message, and an output
 * survives the trip through its raw bytes and `from_slice`.
 */
module Hash160Streaming {
  import opened Bytes
  import Sha256
  import opened Hash160

  /** The concatenation of a sequence of chunks, first chunk first. */
  function Concat(chunks: seq<seq<byte>>): seq<byte>
  {
    if chunks == [] then [] else chunks[0] + Concat(chunks[1..])
  }

  /** Appending one more chunk appends its bytes to the concatenation. */
  lemma {:induction false} ConcatAppend(chunks: seq<seq<byte>>, c: seq<byte>)
    ensures Concat(chunks + [c]) == Concat(chunks) + c
  {
    if chunks == [] {
      assert [] + [c] == [c];
      assert Concat([c][1..]) == [];
    } else {
      calc {
        Concat(chunks + [c]);
        { assert (chunks + [c])[0] == chunks[0]; assert (chunks + [c])[1..] == chunks[1..] + [c]; }
        chunks[0] + Concat(chunks[1..] + [c]);
        { ConcatAppend(chunks[1..], c); }
        chunks[0] + (Concat(chunks[1..]) + c);
      }
    }
  }

  /**
   * The engine test: write the input to a fresh engine one byte at a time,
   * then finalise. The result is HASH160 of the whole input, so it equals
   * what one-shot `Hash` returns for it.
   */
  method HashByteByByte(p: Primitives, input: seq<byte>) returns (manual: Hash160Hash)
    ensures manual.bytes == p.ripemd160(p.sha256(input))
  {
    var engine := Hash160.Engine();
    for i := 0 to |input|
      invariant engine.data == input[..i]
    {
      engine.Write([input[i]]);
      assert input[..i + 1] == input[..i] + [input[i]];
    }
    assert input[..|input|] == input;
    manual := FromEngine(p, engine);
  }

  /**
   * Streaming determinism in general: writing the chunks in order to a
   * fresh engine and finalising gives HASH160 of their concatenation,
   * whatever the chunk boundaries.
   */
  method HashChunks(p: Primitives, chunks: seq<seq<byte>>) returns (h: Hash160Hash)
    ensures h.bytes == p.ripemd160(p.sha256(Concat(chunks)))
  {
    var engine := Hash160.Engine();
    for i := 0 to |chunks|
      invariant engine.data == Concat(chunks[..i])
    {
      engine.Write(chunks[i]);
      ConcatAppend(chunks[..i], chunks[i]);
      assert chunks[..i + 1] == chunks[..i] + [chunks[i]];
    }
    assert chunks[..|chunks|] == chunks;
    h := FromEngine(p, engine);
  }

  /**
   * The engine test itself: one-shot `hash` of the input and the
   * byte-by-byte engine computation agree.
   */
  method CheckStreamingAgrees(p: Primitives, input: seq<byte>) returns (hash: Hash160Hash, manual: Hash160Hash)
    ensures hash == manual
  {
    hash := Hash160.Hash(p, input);
    manual := HashByteByByte(p, input);
  }

  /** An engine finalised without any write yields HASH160 of the empty message. */
  method HashEmpty(p: Primitives) returns (h: Hash160Hash)
    ensures h.bytes == p.ripemd160(p.sha256([]))
  {
    var engine := Hash160.Engine();
    h := FromEngine(p, engine);
  }

  /**
   * The round trip the test makes through an output's bytes: rebuilding
   * an output from its own slice with `from_slice` gives back the same
   * output.
   */
  method Reparse(h: Hash160Hash) returns (back: Result<Hash160Hash>)
    ensures back == Ok(h)
  {
    back := FromSlice(Slice(h));
  }
}
