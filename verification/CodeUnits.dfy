/** Text as the program sees it: sequences of UTF-16 code units, lone surrogates included. */
module CodeUnits {
  type CodeUnit = c: int | 0 <= c <= 0xFFFF
  type Text = seq<CodeUnit>

  const TAB: CodeUnit := 0x09
  const LF: CodeUnit := 0x0A
  const CR: CodeUnit := 0x0D
  const SPACE: CodeUnit := 0x20
  const QUOTE: CodeUnit := 0x22
  const PLUS: CodeUnit := 0x2B
  const COMMA: CodeUnit := 0x2C
  const MINUS: CodeUnit := 0x2D
  const DOT: CodeUnit := 0x2E
  const SLASH: CodeUnit := 0x2F
  const COLON: CodeUnit := 0x3A
  const LBRACKET: CodeUnit := 0x5B
  const BACKSLASH: CodeUnit := 0x5C
  const RBRACKET: CodeUnit := 0x5D
  const LBRACE: CodeUnit := 0x7B
  const RBRACE: CodeUnit := 0x7D
  const BOM: CodeUnit := 0xFEFF

  predicate IsDigit(c: CodeUnit) { 0x30 <= c <= 0x39 }

  predicate IsLetter(c: CodeUnit) { 0x41 <= c <= 0x5A || 0x61 <= c <= 0x7A }

  predicate IsHexDigit(c: CodeUnit) { IsDigit(c) || 0x41 <= c <= 0x46 || 0x61 <= c <= 0x66 }

  predicate IsExponentMark(c: CodeUnit) { c == 0x65 || c == 0x45 }
}
