/** UTF-8 and UTF-16 encodings of code points: the reference against which
    the byte-pattern classifiers are stated.  UTF-8 follows the table of
    section 3 of RFC 3629; UTF-16 follows section 2.1 of RFC 2781 (code units
    written little-endian, the byte order does not change any length). */
module Unicode {

  /** One octet of a buffer, as Go's unsigned 8-bit `byte`. */
  newtype byte = x: int | 0 <= x < 0x100

  predicate IsCodePoint(cp: int) {
    0 <= cp <= 0x10FFFF
  }

  predicate IsSurrogate(cp: int) {
    0xD800 <= cp <= 0xDFFF
  }

  /** A Unicode scalar value: the code points RFC 3629 allows to be encoded. */
  predicate IsScalarValue(cp: int) {
    IsCodePoint(cp) && !IsSurrogate(cp)
  }

  /** The number of bytes RFC 3629 uses for `cp`. */
  function Utf8Length(cp: int): nat {
    if cp < 0x80 then 1
    else if cp < 0x800 then 2
    else if cp < 0x10000 then 3
    else 4
  }

  /** The bit layout of section 3 of RFC 3629.  It is applied to every code
      point, surrogates included, so that lemmas can name the byte patterns a
      surrogate would take (RFC 3629 itself forbids producing them). */
  function Utf8Encode(cp: int): (s: seq<byte>)
    requires IsCodePoint(cp)
    ensures |s| == Utf8Length(cp)
    ensures forall k :: 1 <= k < |s| ==> 0x80 <= s[k] <= 0xBF
  {
    if cp < 0x80 then
      [cp as byte]
    else if cp < 0x800 then
      [(0xC0 + cp / 0x40) as byte, (0x80 + cp % 0x40) as byte]
    else if cp < 0x10000 then
      [(0xE0 + cp / 0x1000) as byte, (0x80 + cp / 0x40 % 0x40) as byte, (0x80 + cp % 0x40) as byte]
    else
      [(0xF0 + cp / 0x40000) as byte, (0x80 + cp / 0x1000 % 0x40) as byte,
       (0x80 + cp / 0x40 % 0x40) as byte, (0x80 + cp % 0x40) as byte]
  }

  /** The bytes of `b` from position `i` on are the UTF-8 encoding of `cp`. */
  predicate EncodesAt(b: seq<byte>, i: int, cp: int)
    requires IsCodePoint(cp)
  {
    0 <= i && i + |Utf8Encode(cp)| <= |b| && b[i..i + |Utf8Encode(cp)|] == Utf8Encode(cp)
  }

  /** The UTF-16 code units of `cp`: one unit inside the Basic Multilingual
      Plane, a surrogate pair above it. */
  function Utf16Units(cp: int): (u: seq<int>)
    requires IsCodePoint(cp)
    ensures |u| == if cp < 0x10000 then 1 else 2
    ensures forall k :: 0 <= k < |u| ==> 0 <= u[k] < 0x10000
    ensures |u| == 2 ==> IsSurrogate(u[0]) && IsSurrogate(u[1])
  {
    if cp < 0x10000 then [cp]
    else [0xD800 + (cp - 0x10000) / 0x400, 0xDC00 + (cp - 0x10000) % 0x400]
  }

  /** The UTF-16LE bytes of `cp`. */
  function Utf16Encode(cp: int): (s: seq<byte>)
    requires IsCodePoint(cp)
    ensures |s| == 2 * |Utf16Units(cp)|
  {
    var u := Utf16Units(cp);
    if |u| == 1 then
      [(u[0] % 0x100) as byte, (u[0] / 0x100) as byte]
    else
      [(u[0] % 0x100) as byte, (u[0] / 0x100) as byte, (u[1] % 0x100) as byte, (u[1] / 0x100) as byte]
  }

  predicate AllCodePoints(cps: seq<int>) {
    forall k :: 0 <= k < |cps| ==> IsCodePoint(cps[k])
  }

  /** The UTF-8 encoding of a whole text. */
  function Utf8Of(cps: seq<int>): seq<byte>
    requires AllCodePoints(cps)
  {
    if cps == [] then [] else Utf8Encode(cps[0]) + Utf8Of(cps[1..])
  }

  /** The UTF-16LE encoding of a whole text. */
  function Utf16Of(cps: seq<int>): seq<byte>
    requires AllCodePoints(cps)
  {
    if cps == [] then [] else Utf16Encode(cps[0]) + Utf16Of(cps[1..])
  }
}
