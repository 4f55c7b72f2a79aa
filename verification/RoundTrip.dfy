/** What the compressor and the decompressor promise each other. */
module RoundTrip {
  import opened Bytes
  import opened Collections
  import opened RangeCoding
  import opened Ppm
  import opened Inputs
  import opened Patching
  import opened RangeCoder
  import opened Correspondence

  /** The compressor's result is never empty by accident: 0 means refused, or nothing to compress. */
  lemma CompressedIsEmptyIff(data: seq<byte>)
    ensures Compressed(data) == [] <==> data == []
  {
    StartIsReady();
    if Compressed(data) == [] {
      NothingCompressed(data);
    }
  }

  /** Whatever a compressor reads of its buffers, a decompressor with room for it makes it of the compressor's result,
      stopping at the right place, whatever either array held before.  Without that room it refuses.  All along the two
      arrays correspond. */
  method CompressThenDecompress(sender: RangeCoder, receiver: RangeCoder, inBuffers: seq<seq<byte>>, beyond: seq<byte>,
                                inLimit: nat, packed: array<byte>, outData: array<byte>)
    returns (n: nat, m: nat, ghost trace: seq<Moment>, ghost trace': seq<Moment>)
    requires sender.symbols.Length == SYMBOLS && receiver.symbols.Length == SYMBOLS
    requires packed != outData && |beyond| == |inBuffers|
    modifies sender.symbols, receiver.symbols, packed, outData
    ensures n <= packed.Length && m <= outData.Length
    ensures var data := Joined(Taken(inBuffers, beyond));
      && (n > 0 <==> inBuffers != [] && inLimit > 0 && 0 < |Compressed(data)| <= packed.Length)
      && (n > 0 && |data| > outData.Length ==> m == 0)
      && (n > 0 && |data| <= outData.Length ==>
            && outData[..m] == data
            && |trace| == |trace'| == |data| + 1
            && (forall i :: 0 <= i <= |data| ==> Corresponding(trace[i], trace'[i]))
            && (sender.symbols != receiver.symbols ==> trace[|data|].s == sender.symbols[..])
            && trace'[|data|].s == receiver.symbols[..])
    ensures n > 0 && |Joined(Taken(inBuffers, beyond))| <= outData.Length ==>
              (outData[..m] == Joined(inBuffers) <==> NoneEmpty(inBuffers[1..]))
  {
    hide Compressed, Joined, Taken, Corresponding, Traced, NoneEmpty;
    n, trace := sender.Compress(inBuffers, beyond, inLimit, packed);
    ghost var data := Joined(Taken(inBuffers, beyond));
    CompressedIsEmptyIff(data);
    m, trace' := receiver.Decompress(packed[..n], outData, data);
    if n > 0 && |data| <= outData.Length { Isomorphic(trace, trace', data); }
    if inBuffers != [] { TakenExactly(inBuffers, beyond); }
  }
}
