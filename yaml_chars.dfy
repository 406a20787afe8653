/** The character classes of chapter 5 ("Characters") of the YAML 1.1
    specification, on code points.  They are the reference the byte
    classifiers of yamlprivateh.go are proved against. */
module YamlChars {

  const Nul := 0x00
  const Tab := 0x09
  const LineFeed := 0x0A
  const CarriageReturn := 0x0D
  const Space := 0x20
  const Hyphen := 0x2D
  const Colon := 0x3A
  const Underscore := 0x5F
  const NextLine := 0x85
  const LineSeparator := 0x2028
  const ParagraphSeparator := 0x2029
  const ByteOrderMark := 0xFEFF

  /** c-printable, section 5.1. */
  predicate Printable(cp: int) {
    || cp == Tab || cp == LineFeed || cp == CarriageReturn
    || 0x20 <= cp <= 0x7E
    || cp == NextLine
    || 0xA0 <= cp <= 0xD7FF
    || 0xE000 <= cp <= 0xFFFD
    || 0x10000 <= cp <= 0x10FFFF
  }

  /** b-char, section 5.4: the generic line breaks and the Unicode ones. */
  predicate BreakChar(cp: int) {
    cp == LineFeed || cp == CarriageReturn || cp == NextLine
    || cp == LineSeparator || cp == ParagraphSeparator
  }

  /** s-white: space or tab. */
  predicate White(cp: int) {
    cp == Space || cp == Tab
  }

  /** ns-dec-digit. */
  predicate DecDigit(cp: int) {
    0x30 <= cp <= 0x39
  }

  /** ns-hex-digit: a decimal digit or a letter A-F in either case. */
  predicate HexDigit(cp: int) {
    DecDigit(cp) || 0x41 <= cp <= 0x46 || 0x61 <= cp <= 0x66
  }

  /** ns-ascii-letter. */
  predicate AsciiLetter(cp: int) {
    0x41 <= cp <= 0x5A || 0x61 <= cp <= 0x7A
  }

  /** ns-word-char: a decimal digit, an ASCII letter or "-". */
  predicate WordChar(cp: int) {
    DecDigit(cp) || AsciiLetter(cp) || cp == Hyphen
  }
}
