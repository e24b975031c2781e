/** Text as the Windows client holds it: sequences of UTF-16 code units, lone surrogates included. */
module Text {

  newtype Byte = b: int | 0 <= b < 0x100
  newtype CodeUnit = u: int | 0 <= u < 0x1_0000

  type Utf16 = seq<CodeUnit>

  const NUL: CodeUnit := 0x00
  const TAB: CodeUnit := 0x09
  const LINE_FEED: CodeUnit := 0x0A
  const VERTICAL_TAB: CodeUnit := 0x0B
  const CARRIAGE_RETURN: CodeUnit := 0x0D
  const SPACE: CodeUnit := 0x20
  const QUOTE: CodeUnit := 0x22
  const SLASH: CodeUnit := 0x2F
  const COLON: CodeUnit := 0x3A
  const BACKSLASH: CodeUnit := 0x5C

  /** `n` copies of one element. */
  function Repeat<T>(x: T, n: nat): (r: seq<T>)
    ensures |r| == n && forall i :: 0 <= i < n ==> r[i] == x
  {
    seq(n, _ => x)
  }

  /** Units that Char.IsWhiteSpace accepts and String.Trim removes. */
  predicate IsWhite(u: CodeUnit) {
    0x09 <= u <= 0x0D || u in {0x20, 0x85, 0xA0, 0x1680, 0x2028, 0x2029, 0x202F, 0x205F, 0x3000} || 0x2000 <= u <= 0x200A
  }

  predicate IsBlank(s: Utf16) {
    forall i :: 0 <= i < |s| ==> IsWhite(s[i])
  }

  /** ASCII text in code units. */
  function Ascii(s: string): (r: Utf16)
    requires forall i :: 0 <= i < |s| ==> s[i] as int < 0x80
    ensures |r| == |s|
  {
    seq(|s|, i requires 0 <= i < |s| => s[i] as int as CodeUnit)
  }

  /** Equal but for case; `fold` is the folding of one unit under OrdinalIgnoreCase. */
  predicate SameFold(fold: CodeUnit -> CodeUnit, a: Utf16, b: Utf16) {
    |a| == |b| && forall i :: 0 <= i < |a| ==> fold(a[i]) == fold(b[i])
  }
}
