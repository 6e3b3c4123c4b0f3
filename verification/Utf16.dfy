/** JavaScript text: a sequence of UTF-16 code units. */
module Utf16 {
  const LF := 10
  const CR := 13

  type CodeUnit = u: int | 0 <= u < 0x10000
  type Text = seq<CodeUnit>

  predicate IsHighSurrogate(u: CodeUnit) { 0xD800 <= u <= 0xDBFF }
  predicate IsLowSurrogate(u: CodeUnit) { 0xDC00 <= u <= 0xDFFF }

  /** `index` starts a surrogate pair: src/code-index/types.ts, lines 214-218. */
  predicate IsSurrogatePair(text: Text, index: nat)
  {
    index + 1 < |text| && IsHighSurrogate(text[index]) && IsLowSurrogate(text[index + 1])
  }
}
