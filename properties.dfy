/** What the byte classifiers mean for encoded characters: each multi-byte
    classifier, applied to the UTF-8 encoding of a code point, decides the YAML
    character class of that code point, and the width helper recovers the
    length of the encoding from its first byte. */
module ClassifyProperties {
  import opened Unicode
  import opened YamlChars
  import opened Classify

  // Width.

  /** The first byte of every encoding has the encoding's length as width;
      every later byte is a continuation byte, of width 0. */
  lemma WidthOfEncoding(cp: int)
    requires IsCodePoint(cp)
    ensures Width(Utf8Encode(cp)[0]) == |Utf8Encode(cp)|
    ensures forall k :: 1 <= k < |Utf8Encode(cp)| ==> Width(Utf8Encode(cp)[k]) == 0
  {
  }

  // Line breaks.

  /** On an encoded character at any position, IsBreak is YAML's b-char. */
  lemma BreakOnEncoding(b: seq<byte>, i: nat, cp: int)
    requires IsCodePoint(cp) && EncodesAt(b, i, cp)
    ensures BreakReadable(b, i)
    ensures IsBreak(b, i) <==> BreakChar(cp)
  {
    var e := Utf8Encode(cp);
    assert forall k :: 0 <= k < |e| ==> b[i + k] == b[i..i + |e|][k] == e[k];
  }

  /** A CR-LF pair always begins with a line break, and after the CR the
      break-or-NUL, space-or-break and blank-or-break classes hold too. */
  lemma CrlfIsBreak(b: seq<byte>, i: nat)
    requires CrlfReadable(b, i) && IsCrlf(b, i)
    ensures BreakReadable(b, i)
    ensures IsBreak(b, i) && IsBreakz(b, i) && IsSpacez(b, i) && IsBlankz(b, i)
  {
  }

  // Digits.

  /** A decimal digit is also a hex digit and a word character, and both
      decoders give it the same value. */
  lemma DigitIsHexAndAlpha(b: seq<byte>, i: nat)
    requires i < |b| && IsDigit(b, i)
    ensures IsHex(b, i) && IsAlpha(b, i)
    ensures AsHex(b, i) == AsDigit(b, i)
  {
  }

  /** The upper-case k-th hex letter at `b[i]` and the lower-case one at
      `c[j]` are both hex digits and both decode to 10 + k. */
  lemma HexLettersIgnoreCase(b: seq<byte>, i: nat, c: seq<byte>, j: nat, k: int)
    requires 0 <= k < 6 && i < |b| && j < |c|
    requires b[i] as int == 'A' as int + k && c[j] as int == 'a' as int + k
    ensures IsHex(b, i) && IsHex(c, j)
    ensures AsHex(b, i) == AsHex(c, j) == 10 + k
  {
  }

  // Printable.

  /** The code points IsPrintable accepts: YAML's c-printable, without tab,
      CR, NEL and the byte-order mark, and without everything above the Basic
      Multilingual Plane. */
  predicate Unescaped(cp: int) {
    && Printable(cp)
    && cp < 0x10000
    && cp != Tab && cp != CarriageReturn && cp != NextLine && cp != ByteOrderMark
  }

  /** On an encoded character, IsPrintable is Unescaped, so it never accepts
      the byte pattern of a surrogate; for every code point the encoding meets
      IsPrintable's lookahead requirement. */
  lemma PrintableOnEncoding(cp: int, rest: seq<byte>)
    requires IsCodePoint(cp)
    ensures PrintableReadable(Utf8Encode(cp) + rest, 0)
    ensures IsPrintable(Utf8Encode(cp) + rest, 0) <==> Unescaped(cp)
    ensures IsPrintable(Utf8Encode(cp) + rest, 0) ==> IsScalarValue(cp)
  {
  }

  /** The same at any position of any buffer that holds the encoding. */
  lemma PrintableOnEncodingAt(b: seq<byte>, i: nat, cp: int)
    requires IsCodePoint(cp) && EncodesAt(b, i, cp)
    ensures PrintableReadable(b, i)
    ensures IsPrintable(b, i) <==> Unescaped(cp)
  {
    var e := Utf8Encode(cp);
    assert b[i..] == e + b[i + |e|..];
    PrintableOnEncoding(cp, b[i + |e|..]);
    assert forall k :: 0 <= k < |e| ==> b[i + k] == b[i..][k];
  }

  /** The boundary bytes of IsPrintable, byte by byte. */
  lemma PrintableBoundaries(b: seq<byte>, i: nat)
    requires PrintableReadable(b, i)
    ensures b[i] == 0x0A || 0x20 <= b[i] <= 0x7E ==> IsPrintable(b, i)
    ensures b[i] == 0x7F || b[i] == 0x0D || b[i] == 0x09 ==> !IsPrintable(b, i)
    ensures b[i] == 0xC2 && b[i + 1] == 0x85 ==> !IsPrintable(b, i)
    ensures b[i] == 0xED && b[i + 1] >= 0xA0 ==> !IsPrintable(b, i)
    ensures b[i] == 0xEF ==>
      (IsPrintable(b, i) <==>
        !(EncodesAt(b, i, ByteOrderMark) || EncodesAt(b, i, 0xFFFE) || EncodesAt(b, i, 0xFFFF)))
  {
    assert Utf8Encode(ByteOrderMark) == [0xEF, 0xBB, 0xBF];
    assert Utf8Encode(0xFFFE) == [0xEF, 0xBF, 0xBE];
    assert Utf8Encode(0xFFFF) == [0xEF, 0xBF, 0xBF];
    if i + 2 < |b| {
      assert b[i..i + 3] == [b[i], b[i + 1], b[i + 2]];
    }
  }

  // Byte-order mark.

  /** IsBom looks only at the start of the buffer, whatever the position. */
  lemma BomIgnoresPosition(b: seq<byte>, i: int, j: int)
    requires BomReadable(b)
    ensures IsBom(b, i) == IsBom(b, j)
    ensures IsBom(b, i) <==> |b| >= 3 && b[..3] == [0xEF, 0xBB, 0xBF]
  {
  }
}
