# YAML scanner byte classifiers, in Dafny

This project models the character classifier of the YAML scanner vendored from
go-yaml v2 (one Go file, `yamlprivateh.go`). The scanner and the emitter of
the package call these classifiers on their buffers. Each is a stateless test
on a byte buffer `b` and a position `i`, and matches raw UTF-8 byte patterns without decoding code points:

- single-byte classes: word character, digit, hex digit, ASCII, NUL, space,
  tab, colon, blank;
- the digit and hex-digit decoders;
- the multi-byte classes: line break (CR, LF, NEL, LS, PS), CR-LF pair,
  byte-order mark at the start of the buffer, and "printable", meaning the
  emitter may write the character unescaped;
- the hand-inlined composites: break-or-NUL, space-or-break-or-NUL,
  blank-or-break-or-NUL;
- `width`, the length of a UTF-8 sequence read from its first byte;
- the buffer-capacity constants of the reader and the writer.

Files:

- `unicode.dfy` (module `Unicode`): bytes as an unsigned 8-bit newtype. It also
  holds the reference encodings: UTF-8 following the table of section 3 of
  RFC 3629, and UTF-16 following section 2.1 of RFC 2781.
- `yaml_chars.dfy` (module `YamlChars`): the character classes of chapter 5
  of the YAML 1.1 specification, over code points. These are c-printable
  (section 5.1), b-char (section 5.4), s-white, ns-dec-digit, ns-hex-digit,
  ns-ascii-letter and ns-word-char.
- `classify.dfy` (module `Classify`): the classifiers, one Dafny function per
  Go function, with the same comparisons in the same order.
- `properties.dfy` (module `ClassifyProperties`): what the classifiers mean on
  encoded characters. Each one is stated on the UTF-8 encoding of an arbitrary
  code point; the line-break and printable results hold at any position of any
  buffer.
- `buffer_sizes.dfy` (module `BufferSizes`): the constants, and the worst-case
  UTF-8/UTF-16 conversions they must hold.

Go panics on an index outside the buffer. Each classifier's `requires` is the
weakest condition under which Go's short-circuit `&&` and `||` stay inside the
buffer. For example, `IsBreak` reads `b[i+2]` only after it has seen `E2 80`.
`Classify.ThreeByteLookahead` shows that three readable bytes at `i`, which
a caller must supply, meet every such condition, `IsBom`'s included. `IsBom`
never reads `i`, so it accepts any integer.

Notes on the code:

- After the lead byte `C2`, `isPrintable` asks only that the next byte be at
  least `A0`. The Go comment's range `#xA0..#xD7FF` would also call for that
  byte to be a continuation byte (at most `BF`), as RFC 3629 requires.
- `isPrintable` leaves out tab, CR and NEL, which YAML 1.1's c-printable
  includes, and everything from U+10000 up. Both exclusions are stated
  over code points by `ClassifyProperties.PrintableOnEncoding`.
- `isAlpha` accepts `_` as well as the digits, ASCII letters and `-` of
  YAML 1.1's ns-word-char. `IsAlpha` states this.

## Model

| member | source | states |
|---|---|---|
| `Classify.IsAlpha` | pkg/yamlmeta/internal/yaml.v2/yamlprivateh.go:27-31 | true exactly on YAML's ns-word-char (digit, ASCII letter, `-`) and on `_` |
| `Classify.IsDigit` | pkg/yamlmeta/internal/yaml.v2/yamlprivateh.go:33-36 | true exactly on ns-dec-digit |
| `Classify.AsDigit` | pkg/yamlmeta/internal/yaml.v2/yamlprivateh.go:38-41 | the value is in 0..9 exactly when the byte is a digit, and then that value's digit character is the byte |
| `Classify.IsHex` | pkg/yamlmeta/internal/yaml.v2/yamlprivateh.go:43-46 | true exactly on ns-hex-digit |
| `Classify.AsHex` | pkg/yamlmeta/internal/yaml.v2/yamlprivateh.go:48-58 | on a hex digit the value is in 0..15, and the byte is that value's lower- or upper-case hex character; on a decimal digit or a non-hex byte it agrees with `AsDigit` |
| `Classify.IsASCII` | pkg/yamlmeta/internal/yaml.v2/yamlprivateh.go:60-63 | true exactly on the bytes that form a one-byte UTF-8 sequence (`Width` 1) |
| `Classify.IsPrintable` | pkg/yamlmeta/internal/yaml.v2/yamlprivateh.go:65-76 | an accepted byte always leads a one- to three-byte sequence: never a continuation byte, never a four-byte lead |
| `Classify.IsZ` | pkg/yamlmeta/internal/yaml.v2/yamlprivateh.go:78-81 | true exactly when the bytes at `i` are the UTF-8 encoding of U+0000 (NUL) |
| `Classify.IsBom` | pkg/yamlmeta/internal/yaml.v2/yamlprivateh.go:83-86 | true exactly when the buffer starts with the UTF-8 encoding of U+FEFF; the position plays no part |
| `Classify.IsSpace` | pkg/yamlmeta/internal/yaml.v2/yamlprivateh.go:88-91 | true exactly when the bytes at `i` are the UTF-8 encoding of U+0020 (space) |
| `Classify.IsColon` | pkg/yamlmeta/internal/yaml.v2/yamlprivateh.go:93-96 | true exactly when the bytes at `i` are the UTF-8 encoding of `:` |
| `Classify.IsTab` | pkg/yamlmeta/internal/yaml.v2/yamlprivateh.go:98-101 | true exactly when the bytes at `i` are the UTF-8 encoding of U+0009 (tab) |
| `Classify.IsBlank` | pkg/yamlmeta/internal/yaml.v2/yamlprivateh.go:103-107 | equals `IsSpace` or `IsTab`, the composition in the commented-out line, and s-white |
| `Classify.IsBreak` | pkg/yamlmeta/internal/yaml.v2/yamlprivateh.go:109-116 | true exactly when the bytes at `i` are the UTF-8 encoding of CR, LF, NEL, LS or PS |
| `Classify.BreakEncodings` | pkg/yamlmeta/internal/yaml.v2/yamlprivateh.go:111-115 | the byte patterns compared are exactly the UTF-8 encodings of the five line breaks, including when the buffer ends early |
| `Classify.IsCrlf` | pkg/yamlmeta/internal/yaml.v2/yamlprivateh.go:118-120 | true exactly on an encoded CR followed by an encoded LF; such a position is a line break |
| `Classify.IsBreakz` | pkg/yamlmeta/internal/yaml.v2/yamlprivateh.go:122-133 | the hand-inlined test equals `IsBreak` or `IsZ` |
| `Classify.IsSpacez` | pkg/yamlmeta/internal/yaml.v2/yamlprivateh.go:135-147 | the hand-inlined test equals `IsSpace` or `IsBreakz` |
| `Classify.IsBlankz` | pkg/yamlmeta/internal/yaml.v2/yamlprivateh.go:149-161 | the hand-inlined test equals `IsBlank` or `IsBreakz` |
| `Classify.Width` | pkg/yamlmeta/internal/yaml.v2/yamlprivateh.go:163-180 | the bit-mask tests equal the numeric ranges: 1 up to 7F, 2 on C0..DF, 3 on E0..EF, 4 on F0..F7, otherwise 0; the result is in 0..4 |
| `Classify.ThreeByteLookahead` | pkg/yamlmeta/internal/yaml.v2/yamlprivateh.go:66-161 | three readable bytes at `i` are enough for every multi-byte classifier, line break, CR-LF, printable and byte-order mark, to read inside the buffer |
| `ClassifyProperties.WidthOfEncoding` | pkg/yamlmeta/internal/yaml.v2/yamlprivateh.go:164-180 | on the UTF-8 encoding of any code point, the first byte's width is the encoding's length and every later byte has width 0 |
| `ClassifyProperties.BreakOnEncoding` | pkg/yamlmeta/internal/yaml.v2/yamlprivateh.go:110-116 | on an encoded code point at any position, `IsBreak` can read its lookahead and holds exactly for YAML's b-char (section 5.4) |
| `ClassifyProperties.CrlfIsBreak` | pkg/yamlmeta/internal/yaml.v2/yamlprivateh.go:118-161 | at a CR-LF pair, the break, break-or-NUL, space-or-break and blank-or-break classes all hold |
| `ClassifyProperties.DigitIsHexAndAlpha` | pkg/yamlmeta/internal/yaml.v2/yamlprivateh.go:34-57 | a digit is a hex digit and a word character, and `AsHex` and `AsDigit` agree on it |
| `ClassifyProperties.HexLettersIgnoreCase` | pkg/yamlmeta/internal/yaml.v2/yamlprivateh.go:49-58 | at any position, `A`..`F` and `a`..`f` are hex digits, and the k-th letter decodes to 10 + k in both cases |
| `ClassifyProperties.PrintableOnEncoding` | pkg/yamlmeta/internal/yaml.v2/yamlprivateh.go:66-76 | on an encoded code point followed by any bytes, `IsPrintable` can read its lookahead and holds exactly on YAML's c-printable (section 5.1) minus tab, CR, NEL and U+FEFF, and minus everything from U+10000 up; in particular it never accepts a surrogate's byte pattern |
| `ClassifyProperties.PrintableOnEncodingAt` | pkg/yamlmeta/internal/yaml.v2/yamlprivateh.go:66-76 | the same at any position of any buffer holding the encoding: `IsPrintable` can read its lookahead and holds exactly on the accepted code points |
| `ClassifyProperties.PrintableBoundaries` | pkg/yamlmeta/internal/yaml.v2/yamlprivateh.go:67-75 | true at 0A and on 20..7E; false at 7F, 0D, 09 and at `C2 85`; false after `ED` then A0 or more (the surrogates); after `EF`, false exactly on the encodings of U+FEFF, U+FFFE and U+FFFF |
| `ClassifyProperties.BomIgnoresPosition` | pkg/yamlmeta/internal/yaml.v2/yamlprivateh.go:84-86 | the result does not depend on `i`, and equals "the first three bytes are `EF BB BF`" |
| `BufferSizes.Capacities` | pkg/yamlmeta/internal/yaml.v2/yamlprivateh.go:6-25 | input buffer = 3 × raw input = 1536; raw output = 2 × output + 2 = 258; stack, queue and string start at 16 |
| `BufferSizes.Utf8WithinThreeHalvesOfUtf16` | pkg/yamlmeta/internal/yaml.v2/yamlprivateh.go:10-12 | any text takes at most 3/2 as many bytes in UTF-8 as in UTF-16 |
| `BufferSizes.Utf16WithinTwiceUtf8` | pkg/yamlmeta/internal/yaml.v2/yamlprivateh.go:17-19 | any text takes at most twice as many bytes in UTF-16 as in UTF-8 |
| `BufferSizes.RawInputFitsInputBuffer` | pkg/yamlmeta/internal/yaml.v2/yamlprivateh.go:10-12 | a raw chunk that fits the raw input buffer, as UTF-8 or UTF-16, fits the input buffer once decoded to UTF-8 |
| `BufferSizes.OutputBufferFitsRawOutput` | pkg/yamlmeta/internal/yaml.v2/yamlprivateh.go:17-19 | a full output buffer, encoded as UTF-16, fits the raw output buffer with two bytes to spare |

## Left out

- The scanner, parser, emitter and reader that call these classifiers are not part of this model. They live in other files of the package.
- Buffer allocation, refill and I/O are out of scope. The constants only record the sizes those components use; the buffer lemmas speak of complete characters, not of a chunk cut in the middle of one.
- Go's runtime panic on an out-of-range index is not modelled as a result. The `requires` clauses exclude it instead.
- UTF-8 validation is not claimed. `Width` gives 2 to `C0` and `C1`, and 4 to `F5`..`F7`, though RFC 3629 never uses them as lead bytes. The classifiers never check continuation bytes.
- Classify.IsPrintable: its own contract states only that an accepted byte leads a one- to three-byte sequence. The code points it accepts are stated over well-formed encodings by `ClassifyProperties.PrintableOnEncoding`; malformed byte sequences are described only byte by byte, by `ClassifyProperties.PrintableBoundaries`.
- UTF-16 is modelled little-endian only. The byte order changes no length.
