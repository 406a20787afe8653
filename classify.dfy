/** The byte classifiers of yamlprivateh.go, which the YAML scanner and
    emitter apply to their buffers.  Each one looks at the buffer `b` from position `i` on
    and matches raw UTF-8 byte patterns, without decoding code points.

    Bounds policy: Go panics on an index outside the buffer.  Every requires
    below is the weakest condition under which Go's left-to-right,
    short-circuit `&&` and `||` read only positions inside `b`: a byte after
    `b[i]` is read only once the bytes before it have matched the prefix of
    a pattern.  ThreeByteLookahead shows that three readable bytes at `i`,
    which a caller must supply, meet all of them. */
module Classify {
  import opened Unicode
  import opened YamlChars

  // Single-byte classes.

  /** A digit, an ASCII letter, '_' or '-': YAML's word characters and '_'. */
  function IsAlpha(b: seq<byte>, i: nat): (r: bool)
    requires i < |b|
    ensures r <==> WordChar(b[i] as int) || b[i] as int == Underscore
  {
    || (b[i] >= '0' as byte && b[i] <= '9' as byte)
    || (b[i] >= 'A' as byte && b[i] <= 'Z' as byte)
    || (b[i] >= 'a' as byte && b[i] <= 'z' as byte)
    || b[i] == '_' as byte
    || b[i] == '-' as byte
  }

  function IsDigit(b: seq<byte>, i: nat): (r: bool)
    requires i < |b|
    ensures r <==> DecDigit(b[i] as int)
  {
    b[i] >= '0' as byte && b[i] <= '9' as byte
  }

  /** The value of a decimal digit: the digit in 0..9 whose character is
      `b[i]`; any other byte gives a value outside 0..9. */
  function AsDigit(b: seq<byte>, i: nat): (v: int)
    requires i < |b|
    ensures IsDigit(b, i) <==> 0 <= v <= 9
    ensures IsDigit(b, i) ==> "0123456789"[v] as int == b[i] as int
  {
    b[i] as int - '0' as int
  }

  function IsHex(b: seq<byte>, i: nat): (r: bool)
    requires i < |b|
    ensures r <==> HexDigit(b[i] as int)
  {
    || (b[i] >= '0' as byte && b[i] <= '9' as byte)
    || (b[i] >= 'A' as byte && b[i] <= 'F' as byte)
    || (b[i] >= 'a' as byte && b[i] <= 'f' as byte)
  }

  /** The value of a hex digit, in either case; on any byte other than the
      letters A-F and a-f it falls back to the decimal-digit value. */
  function AsHex(b: seq<byte>, i: nat): (v: int)
    requires i < |b|
    ensures IsHex(b, i) ==>
      && 0 <= v <= 15
      && ("0123456789abcdef"[v] as int == b[i] as int || "0123456789ABCDEF"[v] as int == b[i] as int)
    ensures !IsHex(b, i) || IsDigit(b, i) ==> v == AsDigit(b, i)
  {
    var bi := b[i];
    if bi >= 'A' as byte && bi <= 'F' as byte then
      bi as int - 'A' as int + 10
    else if bi >= 'a' as byte && bi <= 'f' as byte then
      bi as int - 'a' as int + 10
    else
      bi as int - '0' as int
  }

  /** A byte below 0x80: exactly the bytes that form a one-byte UTF-8 sequence. */
  function IsASCII(b: seq<byte>, i: nat): (r: bool)
    requires i < |b|
    ensures r <==> Width(b[i]) == 1
  {
    b[i] <= 0x7F
  }

  function IsZ(b: seq<byte>, i: nat): (r: bool)
    requires i < |b|
    ensures r <==> EncodesAt(b, i, Nul)
  {
    b[i] == 0x00
  }

  function IsSpace(b: seq<byte>, i: nat): (r: bool)
    requires i < |b|
    ensures r <==> EncodesAt(b, i, Space)
  {
    b[i] == ' ' as byte
  }

  function IsColon(b: seq<byte>, i: nat): (r: bool)
    requires i < |b|
    ensures r <==> EncodesAt(b, i, Colon)
  {
    b[i] == ':' as byte
  }

  function IsTab(b: seq<byte>, i: nat): (r: bool)
    requires i < |b|
    ensures r <==> EncodesAt(b, i, Tab)
  {
    b[i] == '\t' as byte
  }

  /** Space or tab, written out by hand instead of calling IsSpace and IsTab. */
  function IsBlank(b: seq<byte>, i: nat): (r: bool)
    requires i < |b|
    ensures r <==> IsSpace(b, i) || IsTab(b, i)
    ensures r <==> White(b[i] as int)
  {
    b[i] == ' ' as byte || b[i] == '\t' as byte
  }

  // Multi-byte classes.

  /** Go reads `b[i+1]` after a lead byte 0xC2 or 0xE2, and `b[i+2]` after 0xE2 0x80. */
  predicate BreakReadable(b: seq<byte>, i: nat) {
    && i < |b|
    && (b[i] == 0xC2 || b[i] == 0xE2 ==> i + 1 < |b|)
    && (b[i] == 0xE2 && b[i + 1] == 0x80 ==> i + 2 < |b|)
  }

  /** A line break: CR, LF, NEL, LS or PS in UTF-8. */
  function IsBreak(b: seq<byte>, i: nat): (r: bool)
    requires BreakReadable(b, i)
    ensures r <==>
      || EncodesAt(b, i, CarriageReturn) || EncodesAt(b, i, LineFeed)
      || EncodesAt(b, i, NextLine)
      || EncodesAt(b, i, LineSeparator) || EncodesAt(b, i, ParagraphSeparator)
  {
    BreakEncodings(b, i);
    || b[i] == '\r' as byte
    || b[i] == '\n' as byte
    || (b[i] == 0xC2 && b[i + 1] == 0x85)
    || (b[i] == 0xE2 && b[i + 1] == 0x80 && b[i + 2] == 0xA8)
    || (b[i] == 0xE2 && b[i + 1] == 0x80 && b[i + 2] == 0xA9)
  }

  /** Go reads `b[i+1]` only after a CR. */
  predicate CrlfReadable(b: seq<byte>, i: nat) {
    i < |b| && (b[i] == 0x0D ==> i + 1 < |b|)
  }

  /** A CR immediately followed by an LF; such a pair starts with a line break. */
  function IsCrlf(b: seq<byte>, i: nat): (r: bool)
    requires CrlfReadable(b, i)
    ensures r <==> EncodesAt(b, i, CarriageReturn) && EncodesAt(b, i + 1, LineFeed)
    ensures r ==> BreakReadable(b, i) && IsBreak(b, i)
  {
    b[i] == '\r' as byte && b[i + 1] == '\n' as byte
  }

  /** Go reads `b[i+1]` after 0xC2, 0xED or 0xEF, and `b[i+2]` after 0xEF 0xBB or 0xEF 0xBF. */
  predicate PrintableReadable(b: seq<byte>, i: nat) {
    && i < |b|
    && (b[i] == 0xC2 || b[i] == 0xED || b[i] == 0xEF ==> i + 1 < |b|)
    && (b[i] == 0xEF && (b[i + 1] == 0xBB || b[i + 1] == 0xBF) ==> i + 2 < |b|)
  }

  /** A character the emitter may write unescaped.  It never starts at a
      continuation byte nor at the lead byte of a four-byte sequence;
      ClassifyProperties.PrintableOnEncoding gives the code points it accepts. */
  function IsPrintable(b: seq<byte>, i: nat): (r: bool)
    requires PrintableReadable(b, i)
    ensures r ==> 1 <= Width(b[i]) <= 3
  {
    || b[i] == 0x0A
    || (b[i] >= 0x20 && b[i] <= 0x7E)
    || (b[i] == 0xC2 && b[i + 1] >= 0xA0)
    || (b[i] > 0xC2 && b[i] < 0xED)
    || (b[i] == 0xED && b[i + 1] < 0xA0)
    || b[i] == 0xEE
    || (b[i] == 0xEF
        && !(b[i + 1] == 0xBB && b[i + 2] == 0xBF)
        && !(b[i + 1] == 0xBF && (b[i + 2] == 0xBE || b[i + 2] == 0xBF)))
  }

  /** Go reads `b[1]` after `b[0] == 0xEF`, and `b[2]` after 0xEF 0xBB. */
  predicate BomReadable(b: seq<byte>) {
    && 0 < |b|
    && (b[0] == 0xEF ==> 1 < |b|)
    && (b[0] == 0xEF && b[1] == 0xBB ==> 2 < |b|)
  }

  /** The buffer starts with a UTF-8 byte-order mark.  The position `i` is
      never read, so any integer is accepted for it. */
  function IsBom(b: seq<byte>, i: int): (r: bool)
    requires BomReadable(b)
    ensures r <==> EncodesAt(b, 0, ByteOrderMark)
  {
    b[0] == 0xEF && b[1] == 0xBB && b[2] == 0xBF
  }

  // Composites: the break test is copied into each by hand.

  function IsBreakz(b: seq<byte>, i: nat): (r: bool)
    requires BreakReadable(b, i)
    ensures r <==> IsBreak(b, i) || IsZ(b, i)
  {
    || b[i] == '\r' as byte
    || b[i] == '\n' as byte
    || (b[i] == 0xC2 && b[i + 1] == 0x85)
    || (b[i] == 0xE2 && b[i + 1] == 0x80 && b[i + 2] == 0xA8)
    || (b[i] == 0xE2 && b[i + 1] == 0x80 && b[i + 2] == 0xA9)
    || b[i] == 0
  }

  function IsSpacez(b: seq<byte>, i: nat): (r: bool)
    requires BreakReadable(b, i)
    ensures r <==> IsSpace(b, i) || IsBreakz(b, i)
  {
    || b[i] == ' ' as byte
    || b[i] == '\r' as byte
    || b[i] == '\n' as byte
    || (b[i] == 0xC2 && b[i + 1] == 0x85)
    || (b[i] == 0xE2 && b[i + 1] == 0x80 && b[i + 2] == 0xA8)
    || (b[i] == 0xE2 && b[i + 1] == 0x80 && b[i + 2] == 0xA9)
    || b[i] == 0
  }

  function IsBlankz(b: seq<byte>, i: nat): (r: bool)
    requires BreakReadable(b, i)
    ensures r <==> IsBlank(b, i) || IsBreakz(b, i)
  {
    || b[i] == ' ' as byte || b[i] == '\t' as byte
    || b[i] == '\r' as byte
    || b[i] == '\n' as byte
    || (b[i] == 0xC2 && b[i + 1] == 0x85)
    || (b[i] == 0xE2 && b[i + 1] == 0x80 && b[i + 2] == 0xA8)
    || (b[i] == 0xE2 && b[i + 1] == 0x80 && b[i + 2] == 0xA9)
    || b[i] == 0
  }

  // UTF-8 width.

  /** The length of the UTF-8 sequence that `c` leads, found with bit masks;
      0 for a continuation byte and for 0xF8..0xFF, which lead nothing. */
  function Width(c: byte): (w: nat)
    ensures w <= 4
    ensures w == if c <= 0x7F then 1
                 else if 0xC0 <= c <= 0xDF then 2
                 else if 0xE0 <= c <= 0xEF then 3
                 else if 0xF0 <= c <= 0xF7 then 4
                 else 0
  {
    var v := c as bv8;
    if v & 0x80 == 0x00 then 1
    else if v & 0xE0 == 0xC0 then 2
    else if v & 0xF0 == 0xE0 then 3
    else if v & 0xF8 == 0xF0 then 4
    else 0
  }

  /** The five line breaks, as the bytes that stand at `i`. */
  lemma BreakEncodings(b: seq<byte>, i: nat)
    requires i < |b|
    ensures EncodesAt(b, i, CarriageReturn) <==> b[i] == 0x0D
    ensures EncodesAt(b, i, LineFeed) <==> b[i] == 0x0A
    ensures EncodesAt(b, i, NextLine) <==> i + 1 < |b| && b[i] == 0xC2 && b[i + 1] == 0x85
    ensures EncodesAt(b, i, LineSeparator) <==>
      i + 2 < |b| && b[i] == 0xE2 && b[i + 1] == 0x80 && b[i + 2] == 0xA8
    ensures EncodesAt(b, i, ParagraphSeparator) <==>
      i + 2 < |b| && b[i] == 0xE2 && b[i + 1] == 0x80 && b[i + 2] == 0xA9
  {
    assert Utf8Encode(NextLine) == [0xC2, 0x85];
    assert Utf8Encode(LineSeparator) == [0xE2, 0x80, 0xA8];
    assert Utf8Encode(ParagraphSeparator) == [0xE2, 0x80, 0xA9];
    if i + 1 < |b| {
      assert b[i..i + 2] == [b[i], b[i + 1]];
    }
    if i + 2 < |b| {
      assert b[i..i + 3] == [b[i], b[i + 1], b[i + 2]];
    }
  }

  /** Three readable bytes at `i` meet every lookahead requirement above,
      the byte-order mark's at the start of the buffer included. */
  lemma ThreeByteLookahead(b: seq<byte>, i: nat)
    requires i + 2 < |b|
    ensures BreakReadable(b, i) && CrlfReadable(b, i) && PrintableReadable(b, i)
    ensures BomReadable(b)
  {
  }
}
