/** The encoding that the source index measures can be read back (section 3 of RFC 3629): it loses nothing
  * but lone surrogates, which are written as U+FFFD. */
module SourceEncoding {
  import OutputText
  import opened SourceIndex
  import opened Utf16

  /** The first character of a text in UTF-8 and its length, by its first byte. */
  function FirstCharacter(bytes: seq<int>): (int, nat)
  {
    if |bytes| >= 1 && bytes[0] < 0x80 then (bytes[0], 1)
    else if |bytes| >= 2 && 0xC0 <= bytes[0] < 0xE0 then (Number([bytes[0] - 0xC0, bytes[1] - 0x80]), 2)
    else if |bytes| >= 3 && 0xE0 <= bytes[0] < 0xF0 then (Number([bytes[0] - 0xE0, bytes[1] - 0x80, bytes[2] - 0x80]), 3)
    else if |bytes| >= 4 then (Number([bytes[0] - 0xF0, bytes[1] - 0x80, bytes[2] - 0x80, bytes[3] - 0x80]), 4)
    else (0, |bytes|)
  }

  /** A number by its digits to the base 64. */
  function Number(digits: seq<int>): int
  {
    if digits == [] then 0 else Number(digits[..|digits| - 1]) * 0x40 + digits[|digits| - 1]
  }

  /** A character in UTF-16: itself, or two surrogates. */
  function CodeUnits(c: int): seq<int>
  {
    if c < 0x1_0000 then [c] else [0xD800 + (c - 0x1_0000) / 0x400, 0xDC00 + (c - 0x1_0000) % 0x400]
  }

  function Decode(bytes: seq<int>): seq<int>
    decreases |bytes|
  {
    if bytes == [] then []
    else
      var (c, length) := FirstCharacter(bytes);
      CodeUnits(c) + Decode(bytes[length..])
  }

  /** The text with every surrogate that has no partner replaced. */
  function Mended(text: Text): seq<int>
  {
    if text == [] then []
    else if |text| > 1 && 0xD800 <= text[0] < 0xDC00 && 0xDC00 <= text[1] < 0xE000 then text[..2] + Mended(text[2..])
    else (if 0xD800 <= text[0] < 0xE000 then [0xFFFD] else [text[0] as int]) + Mended(text[1..])
  }

  lemma CharacterIsRead(c: int, rest: seq<Byte>)
    requires 0 <= c < 0x11_0000
    ensures FirstCharacter(EncodeCodePoint(c) + rest) == (c, |EncodeCodePoint(c)|)
  {
    hide Number, FirstCharacter;
    DigitsOf(c);
    if c < 0x80 {
      ReadOne(c, rest);
    } else if c < 0x800 {
      ReadTwo(0xC0 + c / 0x40, 0x80 + c % 0x40, rest);
    } else if c < 0x1_0000 {
      ReadThree(0xE0 + c / 0x1000, 0x80 + c / 0x40 % 0x40, 0x80 + c % 0x40, rest);
    } else {
      ReadFour(0xF0 + c / 0x4_0000, 0x80 + c / 0x1000 % 0x40, 0x80 + c / 0x40 % 0x40, 0x80 + c % 0x40, rest);
    }
  }

  lemma DigitsOf(c: int)
    requires c >= 0
    ensures c == c / 0x40 * 0x40 + c % 0x40
    ensures c / 0x40 == c / 0x1000 * 0x40 + c / 0x40 % 0x40
    ensures c / 0x1000 == c / 0x4_0000 * 0x40 + c / 0x1000 % 0x40
  {
  }

  lemma ReadOne(a: int, rest: seq<int>)
    requires a < 0x80
    ensures FirstCharacter([a] + rest) == (a, 1)
  {
  }

  lemma ReadTwo(a: int, b: int, rest: seq<int>)
    requires 0xC0 <= a < 0xE0
    ensures FirstCharacter([a, b] + rest) == ((a - 0xC0) * 0x40 + (b - 0x80), 2)
  {
    hide Number;
    OneDigit(a - 0xC0, b - 0x80);
  }

  lemma ReadThree(a: int, b: int, c: int, rest: seq<int>)
    requires 0xE0 <= a < 0xF0
    ensures FirstCharacter([a, b, c] + rest) == (((a - 0xE0) * 0x40 + (b - 0x80)) * 0x40 + (c - 0x80), 3)
  {
    hide Number;
    TwoDigits(a - 0xE0, b - 0x80, c - 0x80);
  }

  lemma ReadFour(a: int, b: int, c: int, d: int, rest: seq<int>)
    requires 0xF0 <= a
    ensures FirstCharacter([a, b, c, d] + rest) == ((((a - 0xF0) * 0x40 + (b - 0x80)) * 0x40 + (c - 0x80)) * 0x40 + (d - 0x80), 4)
  {
    hide Number;
    ThreeDigits(a - 0xF0, b - 0x80, c - 0x80, d - 0x80);
  }

  lemma OneDigit(a: int, b: int)
    ensures Number([a, b]) == a * 0x40 + b
  {
    assert [a, b][..1] == [a] && [a][..0] == [];
    assert Number([a]) == a;
  }

  lemma TwoDigits(a: int, b: int, c: int)
    ensures Number([a, b, c]) == (a * 0x40 + b) * 0x40 + c
  {
    assert [a, b, c][..2] == [a, b];
    OneDigit(a, b);
  }

  lemma ThreeDigits(a: int, b: int, c: int, d: int)
    ensures Number([a, b, c, d]) == ((a * 0x40 + b) * 0x40 + c) * 0x40 + d
  {
    assert [a, b, c, d][..3] == [a, b, c];
    TwoDigits(a, b, c);
  }

  /** For every text, decoding its encoding gives it back, mended. */
  lemma {:induction false} EncodingIsRead(text: Text)
    ensures Decode(Encode(text)) == Mended(text)
    decreases |text|
  {
    hide EncodeCodePoint, FirstCharacter;
    if text != [] {
      var c, rest := CodePointAt(text, 0), Encode(text[Width(text, 0)..]);
      var bytes := EncodeCodePoint(c) + rest;
      CharacterIsRead(c, rest);
      assert bytes[|EncodeCodePoint(c)|..] == rest;
      EncodingIsRead(text[Width(text, 0)..]);
      FirstUnits(text);
    }
  }

  lemma FirstUnits(text: Text)
    requires text != []
    ensures Mended(text) == CodeUnits(CodePointAt(text, 0)) + Mended(text[Width(text, 0)..])
  {
    if IsSurrogatePair(text, 0) { assert text[..2] == [text[0], text[1]]; }
  }

  // ---------------------------------------------------------------- sizes of characters

  function EncodeAll(text: string): seq<int>
  {
    if text == [] then [] else EncodeAll(text[..|text| - 1]) + EncodeCodePoint(text[|text| - 1] as int)
  }

  /** What captures and budgets take for the size of a text is the length of its encoding. */
  lemma {:induction false} BytesAreEncoded(text: string)
    ensures OutputText.Bytes(text) == |EncodeAll(text)|
  {
    if text != [] { BytesAreEncoded(text[..|text| - 1]); }
  }
}
