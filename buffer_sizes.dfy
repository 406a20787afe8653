/** The buffer capacities of the reader and the writer (yamlprivateh.go).
    The reader decodes a raw chunk, which may be UTF-16, into the UTF-8 input
    buffer; the writer encodes the UTF-8 output buffer into the raw output
    buffer, which may be UTF-16.  The lemmas below show that the capacities
    leave room for that conversion in the worst case. */
module BufferSizes {
  import opened Unicode

  const InputRawBufferSize: nat := 512
  const InputBufferSize: nat := InputRawBufferSize * 3
  const OutputBufferSize: nat := 128
  const OutputRawBufferSize: nat := OutputBufferSize * 2 + 2
  const InitialStackSize: nat := 16
  const InitialQueueSize: nat := 16
  const InitialStringSize: nat := 16

  /** A character takes at most half as many bytes again in UTF-8 as in UTF-16. */
  lemma {:induction false} Utf8WithinThreeHalvesOfUtf16(cps: seq<int>)
    requires AllCodePoints(cps)
    ensures 2 * |Utf8Of(cps)| <= 3 * |Utf16Of(cps)|
  {
    if cps != [] {
      Utf8WithinThreeHalvesOfUtf16(cps[1..]);
    }
  }

  /** A character takes at most twice as many bytes in UTF-16 as in UTF-8. */
  lemma {:induction false} Utf16WithinTwiceUtf8(cps: seq<int>)
    requires AllCodePoints(cps)
    ensures |Utf16Of(cps)| <= 2 * |Utf8Of(cps)|
  {
    if cps != [] {
      Utf16WithinTwiceUtf8(cps[1..]);
    }
  }

  /** The input buffer holds a whole raw buffer once it is decoded: the
      characters of a full raw chunk, read as UTF-8 or as UTF-16, fit in the
      input buffer as UTF-8. */
  lemma RawInputFitsInputBuffer(cps: seq<int>)
    requires AllCodePoints(cps)
    requires |Utf8Of(cps)| <= InputRawBufferSize || |Utf16Of(cps)| <= InputRawBufferSize
    ensures |Utf8Of(cps)| <= InputBufferSize
  {
    Utf8WithinThreeHalvesOfUtf16(cps);
  }

  /** The raw output buffer holds a whole output buffer once it is encoded:
      the characters of a full output buffer, as UTF-16, fit in the raw
      output buffer with two bytes to spare. */
  lemma OutputBufferFitsRawOutput(cps: seq<int>)
    requires AllCodePoints(cps)
    requires |Utf8Of(cps)| <= OutputBufferSize
    ensures 2 + |Utf16Of(cps)| <= OutputRawBufferSize
  {
    Utf16WithinTwiceUtf8(cps);
  }

  /** The capacities and their ratios. */
  lemma Capacities()
    ensures InputBufferSize == 3 * InputRawBufferSize == 1536
    ensures OutputRawBufferSize == 2 * OutputBufferSize + 2 == 258
    ensures InitialStackSize == InitialQueueSize == InitialStringSize == 16
  {
  }
}
