/** UTF-16 to UTF-8 coordinates: src/code-index/types.ts, lines 43-120 and 185-222.
  *
  * The tables of the index are compared with the UTF-8 encoding of the text itself, written
  * out as in section 3 of RFC 3629. A lone surrogate encodes as U+FFFD, three bytes. */
module SourceIndex {
  import opened Utf16

  type Byte = b: int | 0 <= b < 0x100

  // ---------------------------------------------------------------- RFC 3629

  function EncodeCodePoint(c: int): (bytes: seq<Byte>)
    requires 0 <= c < 0x11_0000
    ensures |bytes| > 0
  {
    if c < 0x80 then [c]
    else if c < 0x800 then [0xC0 + c / 0x40, 0x80 + c % 0x40]
    else if c < 0x1_0000 then [0xE0 + c / 0x1000, 0x80 + c / 0x40 % 0x40, 0x80 + c % 0x40]
    else [0xF0 + c / 0x4_0000, 0x80 + c / 0x1000 % 0x40, 0x80 + c / 0x40 % 0x40, 0x80 + c % 0x40]
  }

  /** Code units taken by the character that starts at `i`. */
  function Width(text: Text, i: nat): nat
    requires i < |text|
  {
    if IsSurrogatePair(text, i) then 2 else 1
  }

  function CodePointAt(text: Text, i: nat): (c: int)
    requires i < |text|
    ensures 0 <= c < 0x11_0000
  {
    if IsSurrogatePair(text, i) then 0x1_0000 + (text[i] as int - 0xD800) * 0x400 + (text[i + 1] as int - 0xDC00)
    else if IsHighSurrogate(text[i]) || IsLowSurrogate(text[i]) then 0xFFFD
    else text[i]
  }

  function Encode(text: Text): (bytes: seq<Byte>)
  {
    if text == [] then [] else EncodeCodePoint(CodePointAt(text, 0)) + Encode(text[Width(text, 0)..])
  }

  /** `i` does not fall inside a surrogate pair. */
  predicate Boundary(text: Text, i: nat)
  {
    i <= |text| && (i == 0 || !IsSurrogatePair(text, i - 1))
  }

  lemma FirstOfPrefix(text: Text, i: nat)
    requires Boundary(text, i) && i > 0
    ensures var w := Width(text, 0);
            0 < w <= i && CodePointAt(text[..i], 0) == CodePointAt(text, 0) && Width(text[..i], 0) == w && Boundary(text[w..], i - w)
  {
  }

  lemma {:induction false} EncodeSplits(text: Text, i: nat)
    requires i <= |text| && Boundary(text, i)
    ensures Encode(text) == Encode(text[..i]) + Encode(text[i..])
  {
    hide EncodeCodePoint, CodePointAt, IsSurrogatePair, Boundary;
    if i == 0 {
      assert text[..0] == [] && text[0..] == text;
    } else {
      var w := Width(text, 0);
      FirstOfPrefix(text, i);
      EncodeSplits(text[w..], i - w);
      assert text[w..][..i - w] == text[..i][w..];
      assert text[w..][i - w..] == text[i..];
    }
  }

  /** One scanning step: the character at a boundary adds its own encoding. */
  lemma EncodeStep(text: Text, i: nat)
    requires Boundary(text, i) && i < |text|
    ensures var j := i + Width(text, i);
            Boundary(text, j) && Encode(text[..j]) == Encode(text[..i]) + EncodeCodePoint(CodePointAt(text, i))
  {
    hide EncodeCodePoint;
    var j := i + Width(text, i);
    var one := text[i..j];
    assert CodePointAt(one, 0) == CodePointAt(text, i) && one[Width(one, 0)..] == [];
    assert Boundary(text[..j], i) && Boundary(text, j);
    hide CodePointAt, IsSurrogatePair;
    EncodeSplits(text[..j], i);
    assert text[..j][..i] == text[..i] && text[..j][i..] == one;
  }

  // ---------------------------------------------------------------- lines

  /** 0 and the offset after every newline, in order: of code units or of bytes alike. */
  function LineStarts(s: seq<int>): (starts: seq<nat>)
    ensures |starts| > 0 && starts[0] == 0
    ensures starts[|starts| - 1] <= |s|
  {
    if s == [] then [0]
    else LineStarts(s[..|s| - 1]) + (if s[|s| - 1] == LF then [|s|] else [])
  }

  /** Newlines among the first `n` elements, `n` clamped to the length. */
  function Newlines(s: seq<int>, n: int): nat
    decreases n
  {
    if n <= 0 then 0
    else if n > |s| then Newlines(s, |s|)
    else Newlines(s, n - 1) + (if s[n - 1] == LF then 1 else 0)
  }

  function Whole(s: seq<int>): nat { Newlines(s, |s|) }

  lemma {:induction false} NewlinesOfPrefix(s: seq<int>, t: seq<int>, n: int)
    requires n <= |s|
    ensures Newlines(s + t, n) == Newlines(s, n)
    decreases n
  {
    if n > 0 { NewlinesOfPrefix(s, t, n - 1); }
  }

  lemma {:induction false} NewlinesConcat(s: seq<int>, t: seq<int>)
    ensures Whole(s + t) == Whole(s) + Whole(t)
  {
    if t == [] {
      assert s + t == s;
    } else {
      var front := t[..|t| - 1];
      assert s + t == (s + front) + [t[|t| - 1]] && t == front + [t[|t| - 1]];
      NewlinesConcat(s, front);
      NewlinesOfPrefix(s + front, [t[|t| - 1]], |s + front|);
      NewlinesOfPrefix(front, [t[|t| - 1]], |front|);
    }
  }

  /** Line starts are increasing, and exactly the first 1 + Newlines(s, b) of them are <= b. */
  lemma {:induction false} LineStartsCount(s: seq<int>, b: int)
    requires 0 <= b
    ensures var starts, n := LineStarts(s), Newlines(s, b);
            && |starts| == 1 + Whole(s)
            && n < |starts|
            && (forall k | 0 <= k < |starts| :: starts[k] <= b <==> k <= n)
            && (forall j, k | 0 <= j < k < |starts| :: starts[j] < starts[k])
  {
    if s != [] {
      var front := s[..|s| - 1];
      assert s == front + [s[|s| - 1]];
      LineStartsCount(front, b);
      NewlinesOfPrefix(front, [s[|s| - 1]], |front|);
      if b <= |front| { NewlinesOfPrefix(front, [s[|s| - 1]], b); }
    }
  }

  /** A newline encodes as itself, and no other character's encoding contains a newline byte. */
  lemma OnlyLfEncodesLf(c: int)
    requires 0 <= c < 0x11_0000
    ensures c == LF ==> EncodeCodePoint(c) == [LF]
    ensures c != LF ==> forall k | 0 <= k < |EncodeCodePoint(c)| :: EncodeCodePoint(c)[k] != LF
  {
  }

  lemma EncodedNewlines(c: int)
    requires 0 <= c < 0x11_0000
    ensures Whole(EncodeCodePoint(c)) == (if c == LF then 1 else 0)
  {
    OnlyLfEncodesLf(c);
    hide EncodeCodePoint;
    var bytes := EncodeCodePoint(c);
    if c == LF {
      assert Newlines(bytes, 0) == 0;
    } else {
      NoNewlinesAt(bytes, |bytes|);
    }
  }

  lemma EncodedLineStarts(s: seq<int>, c: int)
    requires 0 <= c < 0x11_0000
    ensures LineStarts(s + EncodeCodePoint(c)) == LineStarts(s) + (if c == LF then [|s| + 1] else [])
  {
    OnlyLfEncodesLf(c);
    hide EncodeCodePoint;
    if c == LF {
      assert (s + [LF])[..|s|] == s;
    } else {
      LineStartsUnchanged(s, EncodeCodePoint(c));
    }
  }

  lemma {:induction false} NoNewlinesAt(s: seq<int>, n: int)
    requires forall k | 0 <= k < |s| :: s[k] != LF
    ensures Newlines(s, n) == 0
    decreases n
  {
    if n > |s| { if |s| > 0 { NoNewlinesAt(s, |s|); } } else if n > 0 { NoNewlinesAt(s, n - 1); }
  }

  lemma {:induction false} LineStartsUnchanged(s: seq<int>, t: seq<int>)
    requires forall k | 0 <= k < |t| :: t[k] != LF
    ensures LineStarts(s + t) == LineStarts(s)
  {
    if t == [] {
      assert s + t == s;
    } else {
      var front := t[..|t| - 1];
      assert (s + t)[..|s + t| - 1] == s + front;
      LineStartsUnchanged(s, front);
    }
  }

  /** Encoding keeps every newline and invents none. */
  lemma {:induction false} NewlinesSurviveEncoding(text: Text)
    ensures Whole(Encode(text)) == Whole(text)
  {
    if text != [] {
      var first, rest := text[..Width(text, 0)], text[Width(text, 0)..];
      calc {
        Whole(Encode(text));
        { NewlinesConcat(EncodeCodePoint(CodePointAt(text, 0)), Encode(rest)); }
        Whole(EncodeCodePoint(CodePointAt(text, 0))) + Whole(Encode(rest));
        { EncodedNewlines(CodePointAt(text, 0)); FirstNewlines(text); NewlinesSurviveEncoding(rest); }
        Whole(first) + Whole(rest);
        { NewlinesConcat(first, rest); assert text == first + rest; }
        Whole(text);
      }
    }
  }

  lemma FirstNewlines(text: Text)
    requires text != []
    ensures Whole(text[..Width(text, 0)]) == (if CodePointAt(text, 0) == LF then 1 else 0)
  {
    var first := text[..Width(text, 0)];
    assert Newlines(first, 0) == 0 && Newlines(first, 1) == (if first[0] == LF then 1 else 0);
  }

  // ---------------------------------------------------------------- the index

  /** Offset of `i` in UTF-8: the bytes of the first `i` units, or of the whole pair `i` is inside. */
  function ByteOffset(text: Text, i: nat): nat
    requires i <= |text|
  {
    |Encode(text[..WholeEnd(text, i)])|
  }

  function ClampOffset(value: int, length: nat): (r: nat)
    ensures r <= length && (0 <= value <= length ==> r == value)
  {
    if value < 0 then 0 else if value > length then length else value
  }

  /** Bytes the scan adds for the character at `i`, by the tests the code makes. */
  function SizeAt(text: Text, i: nat): (size: nat)
    requires i < |text|
    ensures size == |EncodeCodePoint(CodePointAt(text, i))|
  {
    if text[i] < 0x80 then 1 else if text[i] < 0x800 then 2 else if IsSurrogatePair(text, i) then 4 else 3
  }

  /** One step of the offset table: both units of a pair get the offset after the pair. */
  lemma OffsetStep(text: Text, i: nat)
    requires Boundary(text, i) && i < |text|
    ensures Boundary(text, i + Width(text, i))
    ensures ByteOffset(text, i + 1) == ByteOffset(text, i) + SizeAt(text, i)
    ensures IsSurrogatePair(text, i) ==> ByteOffset(text, i + 2) == ByteOffset(text, i + 1)
  {
    EncodeStep(text, i);
    hide Encode, EncodeCodePoint, CodePointAt;
  }

  method BuildCharToByte(text: Text) returns (offsets: array<nat>)
    ensures fresh(offsets) && offsets.Length == |text| + 1
    ensures forall i | 0 <= i <= |text| :: offsets[i] == ByteOffset(text, i)
  {
    hide ByteOffset, Boundary;
    offsets := new nat[|text| + 1](_ => 0);
    var bytes, index := 0, 0;
    NoBytesAtStart(text);
    while index < |text|
      invariant index <= |text| && Boundary(text, index) && bytes == ByteOffset(text, index)
      invariant forall i | 0 <= i <= index :: offsets[i] == ByteOffset(text, i)
    {
      OffsetStep(text, index);
      var code := text[index];
      if code < 0x80 {
        bytes := bytes + 1;
      } else if code < 0x800 {
        bytes := bytes + 2;
      } else if IsSurrogatePair(text, index) {
        bytes := bytes + 4;
        offsets[index + 1] := bytes;
        index := index + 1;
      } else {
        bytes := bytes + 3;
      }
      offsets[index + 1] := bytes;
      index := index + 1;
    }
  }

  lemma NoBytesAtStart(text: Text)
    ensures Boundary(text, 0) && ByteOffset(text, 0) == 0
  {
    assert text[..0] == [];
  }

  ghost predicate AsciiUpTo(text: Text, n: nat)
    requires n <= |text|
  {
    forall k | 0 <= k < n :: text[k] < 0x80
  }

  lemma NothingScanned(text: Text)
    ensures AsciiUpTo(text, 0) && Scanned(text, 0, 0, [0], [0])
  {
    assert text[..0] == [];
  }

  /** The constructor's first loop. */
  method ScanLines(text: Text) returns (lineStarts: seq<nat>, lineStartChars: seq<nat>, bytes: nat, ascii: bool)
    ensures lineStarts == LineStarts(Encode(text)) && lineStartChars == LineStarts(text)
    ensures LineTables(text, |text|, lineStarts, lineStartChars)
    ensures bytes == |Encode(text)|
    ensures ascii <==> AsciiUpTo(text, |text|)
  {
    hide Scanned, Encode, ByteOffset, LineStarts, LineTables, AsciiUpTo;
    lineStarts, lineStartChars, bytes, ascii := [0], [0], 0, true;
    var index := 0;
    NothingScanned(text);
    while index < |text|
      invariant index <= |text| && Scanned(text, index, bytes, lineStarts, lineStartChars)
      invariant ascii <==> AsciiUpTo(text, index)
    {
      ScanStep(text, index, bytes, lineStarts, lineStartChars);
      AsciiStep(text, index);
      var code := text[index];
      if code < 0x80 {
        bytes := bytes + 1;
      } else {
        ascii := false;
        if code < 0x800 {
          bytes := bytes + 2;
        } else if IsSurrogatePair(text, index) {
          bytes := bytes + 4;
          index := index + 1;
        } else {
          bytes := bytes + 3;
        }
      }
      if code == LF {
        lineStarts := lineStarts + [bytes];
        lineStartChars := lineStartChars + [index + 1];
      }
      index := index + 1;
    }
    ScanDone(text, bytes, lineStarts, lineStartChars);
  }

  class Index {
    ghost const text: Text
    const lineStarts: seq<nat>
    const lineStartChars: seq<nat>
    const byteLength: nat
    const charLength: nat
    const charToByte: array?<nat>

    /** What the tables say about the text they were built from. */
    ghost predicate Valid()
      reads charToByte
    {
      && charLength == |text|
      && byteLength == |Encode(text)|
      && lineStarts == LineStarts(Encode(text))
      && lineStartChars == LineStarts(text)
      && LineTables(text, |text|, lineStarts, lineStartChars)
      && if charToByte == null then AsciiUpTo(text, |text|)
         else charToByte.Length == |text| + 1 && forall i | 0 <= i <= |text| :: charToByte[i] == ByteOffset(text, i)
    }

    constructor (text: Text)
      ensures this.text == text && Valid()
    {
      var starts, startChars, bytes, ascii := ScanLines(text);
      var table: array?<nat> := null;
      if !ascii { table := BuildCharToByte(text); }
      this.text := text;
      this.lineStarts := starts;
      this.lineStartChars := startChars;
      this.byteLength := bytes;
      this.charLength := |text|;
      this.charToByte := table;
    }

    /** The table and the ASCII shortcut both answer the UTF-8 offset. */
    method ByteForChar(charOffset: int) returns (byte: nat)
      requires Valid()
      ensures byte == ByteOffset(text, ClampOffset(charOffset, |text|))
    {
      var offset := ClampOffset(charOffset, charLength);
      if charToByte == null {
        AsciiOffsets(text, offset);
        byte := offset;
      } else {
        byte := charToByte[offset];
      }
    }

    /** Binary search: one plus the newline bytes that end at or before the offset. */
    method LineForByte(byteOffset: int) returns (line: nat)
      requires Valid()
      ensures line == 1 + Newlines(Encode(text), byteOffset)
    {
      var low, high := 0, |lineStarts| - 1;
      LineStartsCount(Encode(text), if byteOffset < 0 then 0 else byteOffset);
      while low <= high
        invariant 0 <= low <= high + 1 <= |lineStarts|
        invariant forall k | 0 <= k < low :: lineStarts[k] <= byteOffset
        invariant forall k | high < k < |lineStarts| :: byteOffset < lineStarts[k]
      {
        var middle := (low + high) / 2;
        if lineStarts[middle] <= byteOffset { low := middle + 1; } else { high := middle - 1; }
      }
      line := if high + 1 > 1 then high + 1 else 1;
      if 0 <= byteOffset {
        assert high >= 0;
        var n := Newlines(Encode(text), byteOffset);
        assert lineStarts[high] <= byteOffset;
        assert lineStarts[n] <= byteOffset;
      } else {
        assert high < 0;
      }
    }

    /** `range`: the 1-based inclusive lines and the UTF-8 bytes of a span of code units. The last line
      * is that of the last unit in the span, or of its start when nothing is in it. */
    method Range(startChar: int, endChar: int) returns (startLine: nat, endLine: nat, startByte: nat, endByte: nat)
      requires Valid()
      ensures startByte == ByteOffset(text, ClampOffset(startChar, |text|))
      ensures endByte == ByteOffset(text, ClampOffset(endChar, |text|))
      ensures startLine == LineOfUnit(text, ClampOffset(startChar, |text|))
      ensures var start, end := ClampOffset(startChar, |text|), ClampOffset(endChar, |text|);
              endLine == LineOfUnit(text, if end > start then end - 1 else start)
    {
      hide Encode, ByteOffset, Newlines;
      startByte := ByteForChar(startChar);
      endByte := ByteForChar(endChar);
      startLine := LineForByte(startByte);
      LineOfOffset(text, ClampOffset(startChar, |text|));
      endLine := LineForByte(if startByte < endByte - 1 then endByte - 1 else startByte);
      LastLine(text, ClampOffset(startChar, |text|), ClampOffset(endChar, |text|));
    }
  }

  /** Where the character before `e` starts, if `e` is inside or after it. */
  function LastStart(text: Text, e: nat): (i: nat)
    requires 0 < e <= |text|
    ensures Boundary(text, i) && i < |text| && i + Width(text, i) == WholeEnd(text, e) <= |text|
    ensures i == e - 1 || (i == e - 2 && IsSurrogatePair(text, i))
  {
    var j := WholeEnd(text, e);
    if Boundary(text, j - 1) then j - 1 else j - 2
  }

  /** Up to the last byte of a character there are as many newlines as up to the character. */
  lemma NewlinesBeforeLast(head: seq<int>, c: int, tail: seq<int>)
    requires 0 <= c < 0x11_0000
    ensures Newlines(head + EncodeCodePoint(c) + tail, |head| + |EncodeCodePoint(c)| - 1) == Whole(head)
  {
    hide EncodeCodePoint, Newlines;
    var one := EncodeCodePoint(c);
    var m := |one| - 1;
    OnlyLfEncodesLf(c);
    if m > 0 { NoNewlinesAt(one[..m], m); } else { NoneAtAll(one[..m]); }
    NewlinesConcat(head, one[..m]);
    NewlinesOfPrefix(head + one[..m], one[m..] + tail, |head| + m);
    assert head + one + tail == (head + one[..m]) + (one[m..] + tail);
  }

  lemma NoneAtAll(s: seq<int>)
    requires s == []
    ensures Whole(s) == 0
  {
  }

  lemma LastByteLine(text: Text, e: nat)
    requires 0 < e <= |text|
    ensures ByteOffset(text, e) > 0 && Newlines(Encode(text), ByteOffset(text, e) - 1) == Newlines(text, e - 1)
  {
    hide Encode, EncodeCodePoint, CodePointAt, Newlines, Boundary, IsSurrogatePair;
    var i, j := LastStart(text, e), WholeEnd(text, e);
    EncodeStep(text, i);
    EncodeSplits(text, j);
    NewlinesBeforeLast(Encode(text[..i]), CodePointAt(text, i), Encode(text[j..]));
    NewlinesSurviveEncoding(text[..i]);
    NewlinesOfPrefix(text[..i], text[i..], i);
    assert text == text[..i] + text[i..];
    HalfPair(text, i, e);
  }

  lemma HalfPair(text: Text, i: nat, e: nat)
    requires 0 < e <= |text| && i < |text| && (i == e - 1 || (i == e - 2 && IsSurrogatePair(text, i)))
    ensures Newlines(text, i) == Newlines(text, e - 1)
  {
  }

  /** Only the two halves of a pair have one offset. */
  lemma SameOffset(text: Text, s: nat, e: nat)
    requires s < e <= |text| && ByteOffset(text, s) == ByteOffset(text, e)
    ensures e == s + 1
  {
    hide ByteOffset, Boundary;
    OffsetsIncrease(text, s, e);
    InsidePair(text, s);
    if e > s + 1 { OffsetsIncrease(text, s + 1, e); }
  }

  lemma InsidePair(text: Text, s: nat)
    requires s < |text|
    ensures !Boundary(text, s) ==> Boundary(text, s + 1) && ByteOffset(text, s) == ByteOffset(text, s + 1)
  {
    hide Encode;
  }

  lemma LastLine(text: Text, s: nat, e: nat)
    requires s <= |text| && e <= |text|
    ensures var startByte, endByte := ByteOffset(text, s), ByteOffset(text, e);
            1 + Newlines(Encode(text), if startByte < endByte - 1 then endByte - 1 else startByte) ==
            LineOfUnit(text, if e > s then e - 1 else s)
  {
    hide Encode, ByteOffset, Newlines;
    LineOfOffset(text, s);
    if e > s {
      LastByteLine(text, e);
      OffsetsIncrease(text, s, e);
      if ByteOffset(text, e) == ByteOffset(text, s) { SameOffset(text, s, e); }
    } else {
      if e < s { OffsetsIncrease(text, e, s); }
    }
  }

  /** The two line tables after the first `index` code units, entry by entry. */
  ghost predicate LineTables(text: Text, index: nat, lineStarts: seq<nat>, lineStartChars: seq<nat>)
  {
    && index <= |text|
    && |lineStarts| == |lineStartChars|
    && forall k | 0 <= k < |lineStarts| :: lineStartChars[k] <= index && lineStarts[k] == ByteOffset(text, lineStartChars[k])
  }

  /** What the constructor's scan has established at a boundary. */
  ghost predicate Scanned(text: Text, index: nat, bytes: nat, lineStarts: seq<nat>, lineStartChars: seq<nat>)
  {
    && Boundary(text, index)
    && bytes == ByteOffset(text, index) == |Encode(text[..index])|
    && lineStarts == LineStarts(Encode(text[..index]))
    && lineStartChars == LineStarts(text[..index])
    && LineTables(text, index, lineStarts, lineStartChars)
  }

  lemma ScanStep(text: Text, index: nat, bytes: nat, lineStarts: seq<nat>, lineStartChars: seq<nat>)
    requires Scanned(text, index, bytes, lineStarts, lineStartChars) && index < |text|
    ensures var next, total := index + Width(text, index), bytes + SizeAt(text, index);
            next <= |text| && if text[index] == LF then Scanned(text, next, total, lineStarts + [total], lineStartChars + [next])
            else Scanned(text, next, total, lineStarts, lineStartChars)
    ensures Boundary(text, index)
  {
    hide LineTables, LineStarts, Encode, EncodeCodePoint, ByteOffset, IsSurrogatePair;
    var next, total := index + Width(text, index), bytes + SizeAt(text, index);
    OffsetStep(text, index);
    EncodedStep(text, index);
    assert LineStarts(text[..next]) == lineStartChars + (if text[index] == LF then [next] else []) by {
      LineStartsStep(text, index);
    }
    TablesStep(text, index, next, lineStarts, lineStartChars);
  }

  lemma AsciiStep(text: Text, i: nat)
    requires Boundary(text, i) && i < |text|
    ensures AsciiUpTo(text, i + Width(text, i)) <==> AsciiUpTo(text, i) && text[i] < 0x80
  {
  }

  /** The byte-level half of a scanning step. */
  lemma EncodedStep(text: Text, i: nat)
    requires Boundary(text, i) && i < |text|
    ensures var head, next := Encode(text[..i]), Encode(text[..i + Width(text, i)]);
            && |next| == |head| + SizeAt(text, i)
            && LineStarts(next) == LineStarts(head) + (if text[i] == LF then [|next|] else [])
  {
    var c := CodePointAt(text, i);
    assert c == LF <==> text[i] == LF;
    EncodeStep(text, i);
    hide Encode, CodePointAt;
    EncodedLineStarts(Encode(text[..i]), c);
    hide EncodeCodePoint, LineStarts;
  }

  lemma TablesStep(text: Text, index: nat, next: nat, lineStarts: seq<nat>, lineStartChars: seq<nat>)
    requires LineTables(text, index, lineStarts, lineStartChars) && index <= next <= |text|
    ensures LineTables(text, next, lineStarts, lineStartChars)
    ensures LineTables(text, next, lineStarts + [ByteOffset(text, next)], lineStartChars + [next])
  {
    hide ByteOffset;
  }

  lemma ScanDone(text: Text, bytes: nat, lineStarts: seq<nat>, lineStartChars: seq<nat>)
    requires Scanned(text, |text|, bytes, lineStarts, lineStartChars)
    ensures bytes == |Encode(text)| && lineStarts == LineStarts(Encode(text)) && lineStartChars == LineStarts(text)
    ensures LineTables(text, |text|, lineStarts, lineStartChars)
  {
    assert text[..|text|] == text;
  }

  lemma LineStartsStep(text: Text, i: nat)
    requires Boundary(text, i) && i < |text|
    ensures var j := i + Width(text, i);
            LineStarts(text[..j]) == LineStarts(text[..i]) + (if text[i] == LF then [j] else [])
  {
    var j := i + Width(text, i);
    if text[i] == LF {
      assert text[..j][..j - 1] == text[..i];
    } else {
      assert text[..j] == text[..i] + text[i..j];
      LineStartsUnchanged(text[..i], text[i..j]);
    }
  }

  lemma {:induction false} AsciiOffsets(text: Text, i: nat)
    requires i <= |text| && AsciiUpTo(text, |text|)
    ensures ByteOffset(text, i) == i
  {
    NoBytesAtStart(text);
    hide ByteOffset;
    if i > 0 {
      AsciiOffsets(text, i - 1);
      OffsetStep(text, i - 1);
    }
  }

  /** 1-based line of the code unit at `i`, counted from the start of the text. */
  function LineOfUnit(text: Text, i: nat): nat
    requires i <= |text|
  {
    1 + Newlines(text, i)
  }

  /** The byte coordinate and the code-unit coordinate of one place name the same line. */
  lemma LineOfOffset(text: Text, i: nat)
    requires i <= |text|
    ensures 1 + Newlines(Encode(text), ByteOffset(text, i)) == LineOfUnit(text, i)
  {
    hide Encode, Newlines, IsSurrogatePair, Boundary;
    SameLine(text, i);
    LineAtBoundary(text, WholeEnd(text, i));
  }

  /** The second half of a pair is not a newline. */
  lemma SameLine(text: Text, i: nat)
    requires i <= |text|
    ensures Newlines(text, WholeEnd(text, i)) == Newlines(text, i)
  {
  }

  lemma LineAtBoundary(text: Text, j: nat)
    requires Boundary(text, j)
    ensures Newlines(Encode(text), |Encode(text[..j])|) == Newlines(text, j)
  {
    var head, tail := text[..j], text[j..];
    EncodeSplits(text, j);
    hide Encode;
    NewlinesOfPrefix(Encode(head), Encode(tail), |Encode(head)|);
    NewlinesSurviveEncoding(head);
    NewlinesOfPrefix(head, tail, j);
    assert text == head + tail;
  }

  /** `i`, or the end of the pair it is inside: a boundary either way. */
  function WholeEnd(text: Text, i: nat): (j: nat)
    requires i <= |text|
    ensures Boundary(text, j) && i <= j <= i + 1
    ensures j != i ==> i > 0 && IsSurrogatePair(text, i - 1)
  {
    if Boundary(text, i) then i else i + 1
  }

  /** Offsets never decrease, and every character adds at least one byte. */
  lemma {:induction false} OffsetsIncrease(text: Text, i: nat, j: nat)
    requires i < j <= |text|
    ensures ByteOffset(text, i) <= ByteOffset(text, j)
    ensures Boundary(text, i) ==> ByteOffset(text, i) < ByteOffset(text, j)
    decreases j
  {
    if Boundary(text, j - 1) {
      OffsetStep(text, j - 1);
    } else {
      OffsetStep(text, j - 2);
    }
    hide ByteOffset;
    if i < j - 1 { OffsetsIncrease(text, i, j - 1); }
  }
}
