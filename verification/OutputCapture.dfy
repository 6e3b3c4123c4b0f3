/** Bounded capture of a command's output: src/bash-tool/output-capture.ts, lines 17-101. */
module OutputCapture {
  import opened OutputText

  type Byte = b: int | 0 <= b < 0x100

  /** A streaming decoder: what it emits for a byte depends on the bytes so far, not on their chunks. */
  datatype Decoder<!S> = Decoder(start: S, step: (S, Byte) -> (S, string), end: S -> string)

  function Decode<S>(decoder: Decoder<S>, state: S, bytes: seq<Byte>): (S, string)
  {
    if bytes == [] then (state, [])
    else
      var (before, text) := Decode(decoder, state, bytes[..|bytes| - 1]);
      var (after, more) := decoder.step(before, bytes[|bytes| - 1]);
      (after, text + more)
  }

  /** The text of a whole stream. */
  function Text<S>(decoder: Decoder<S>, bytes: seq<Byte>): string
  {
    var (last, text) := Decode(decoder, decoder.start, bytes);
    text + decoder.end(last)
  }

  lemma {:induction false} DecodeJoin<S>(decoder: Decoder<S>, state: S, a: seq<Byte>, b: seq<Byte>)
    ensures var (middle, first) := Decode(decoder, state, a);
            var (last, second) := Decode(decoder, middle, b);
            Decode(decoder, state, a + b) == (last, first + second)
  {
    if b == [] {
      var (_, first) := Decode(decoder, state, a);
      assert a + b == a && first + [] == first;
    } else {
      DecodeJoin(decoder, state, a, b[..|b| - 1]);
      assert (a + b)[..|a| + |b| - 1] == a + b[..|b| - 1];
      var (middle, first) := Decode(decoder, state, a);
      var (before, second) := Decode(decoder, middle, b[..|b| - 1]);
      var (_, more) := decoder.step(before, b[|b| - 1]);
      assert (first + second) + more == first + (second + more);
    }
  }

  datatype CapturedOutput = CapturedOutput(previewText: string, totalBytes: nat, totalLines: nat, captureComplete: bool, binary: bool)

  class OutputCapture<S> {
    const decoder: Decoder<S>
    const maxCaptureBytes: nat
    const previewLimit: nat
    var state: S
    var log: seq<Byte>              // the file
    var totalBytes: nat
    var capturedBytes: nat
    var lineBreaks: nat
    var lastCharWasNewline: bool
    var head: string
    var tail: string
    var binary: bool
    var closed: bool
    ghost var stream: seq<Byte>     // everything appended
    ghost var pieces: seq<string>   // everything decoded

    ghost predicate Counted()
      reads this
    {
      && totalBytes == |stream|
      && log == stream[..if |stream| <= maxCaptureBytes then |stream| else maxCaptureBytes]
      && capturedBytes == |log|
      && (binary <==> 0 in stream)
    }

    ghost predicate Previewed()
      reads this
    {
      var text := Concat(pieces);
      && lineBreaks == Breaks(text)
      && lastCharWasNewline == (text != [] && text[|text| - 1] == '\n')
      && head == StreamedHead(pieces, previewLimit / 2)
      && tail == TakeTail(text, previewLimit - previewLimit / 2)
    }

    /** Nothing that is kept depends on how the stream was cut, but for the head. */
    ghost predicate Valid()
      reads this
    {
      && previewLimit >= 1024
      && Counted()
      && Previewed()
      && (if closed then Concat(pieces) == Text(decoder, stream)
          else (state, Concat(pieces)) == Decode(decoder, decoder.start, stream))
    }

    constructor (decoder: Decoder<S>, maxCaptureBytes: nat, previewBytes: nat)
      ensures Valid() && !closed && stream == [] && pieces == []
      ensures this.decoder == decoder && this.maxCaptureBytes == maxCaptureBytes
      ensures previewLimit == if previewBytes > 1024 then previewBytes else 1024
    {
      this.decoder := decoder;
      this.maxCaptureBytes := maxCaptureBytes;
      previewLimit := if previewBytes > 1024 then previewBytes else 1024;
      state := decoder.start;
      log, totalBytes, capturedBytes, lineBreaks, lastCharWasNewline := [], 0, 0, 0, false;
      head, tail, binary, closed := [], [], false, false;
      stream, pieces := [], [];
    }

    method Append(data: seq<Byte>)
      requires Valid()
      modifies this
      ensures Valid() && closed == old(closed)
      ensures stream == if old(closed) then old(stream) else old(stream) + data
      ensures closed ==> pieces == old(pieces) && log == old(log)
    {
      hide Breaks, TakeTail, TakeHead, StreamedHead, Bytes;
      if closed { return; }
      Count(data);
      DecodeJoin(decoder, decoder.start, stream, data);
      var (next, text) := Decode(decoder, state, data);
      state := next;
      stream := stream + data;
      AppendPreview(text);
    }

    /** The counters and the file. */
    method Count(data: seq<Byte>)
      requires Counted()
      modifies this`totalBytes, this`capturedBytes, this`binary, this`log
      ensures totalBytes == |stream + data| && capturedBytes == |log| && (binary <==> 0 in stream + data)
      ensures log == (stream + data)[..if |stream + data| <= maxCaptureBytes then |stream + data| else maxCaptureBytes]
    {
      totalBytes := totalBytes + |data|;
      if 0 in data { binary := true; }
      if capturedBytes < maxCaptureBytes {
        var remaining := maxCaptureBytes - capturedBytes;
        var chunk := if |data| <= remaining then data else data[..remaining];
        log := log + chunk;
        capturedBytes := capturedBytes + |chunk|;
      }
    }

    method AppendPreview(text: string)
      requires Previewed() && previewLimit >= 1024
      modifies this`lineBreaks, this`lastCharWasNewline, this`head, this`tail, this`pieces
      ensures Previewed() && Concat(pieces) == Concat(old(pieces)) + text
    {
      hide Breaks, TakeTail, TakeHead, Bytes, StreamedHead, Concat;
      PieceAdded(pieces, text, previewLimit / 2);
      if |text| == 0 {
        assert Concat(pieces) + text == Concat(pieces);
        return;
      }
      ghost var before := Concat(pieces);
      CountLines(text);
      BreaksJoin(before, text);
      var headLimit := previewLimit / 2;
      if Bytes(head) < headLimit { head := TakeHeadBytes(head + text, headLimit); }
      tail := TakeTailBytes(tail + text, previewLimit - headLimit);
      TailOfTail(before, text, previewLimit - headLimit);
      pieces := pieces + [text];
    }

    method CountLines(text: string)
      requires text != []
      modifies this`lineBreaks, this`lastCharWasNewline
      ensures lineBreaks == old(lineBreaks) + Breaks(text)
      ensures lastCharWasNewline == (text[|text| - 1] == '\n')
    {
      var next := 0;
      while next < |text|
        invariant next <= |text| && lineBreaks == old(lineBreaks) + Breaks(text[..next])
        invariant next > 0 ==> lastCharWasNewline == (text[next - 1] == '\n')
      {
        assert text[..next + 1][..next] == text[..next];
        if text[next] == '\n' { lineBreaks := lineBreaks + 1; }
        lastCharWasNewline := text[next] == '\n';
        next := next + 1;
      }
      assert text[..next] == text;
    }

    method LiveText(maxBytes: nat) returns (text: string)
      requires Valid()
      ensures maxBytes <= previewLimit - previewLimit / 2 ==> text == TakeTail(Concat(pieces), maxBytes)
    {
      text := TakeTailBytes(if tail != [] then tail else head, maxBytes);
      if maxBytes <= previewLimit - previewLimit / 2 { TailWithin(Concat(pieces), previewLimit - previewLimit / 2, maxBytes); }
      TailIsEmpty(pieces, previewLimit / 2, previewLimit - previewLimit / 2);
    }

    /** However the stream was cut: the counts and the tail are those of the whole, and a text that
      * fits the head is reported whole. */
    method Finish() returns (output: CapturedOutput)
      requires Valid() && !closed
      modifies this
      ensures Valid() && closed && stream == old(stream) && log == old(log)
      ensures var text := Text(decoder, stream);
              && tail == TakeTail(text, previewLimit - previewLimit / 2)
              && output.totalBytes == |stream| && (output.binary <==> 0 in stream)
              && (output.captureComplete <==> |stream| <= maxCaptureBytes)
              && (output.captureComplete <==> log == stream)
              && output.totalLines == (if stream == [] then 0 else if text == [] then 1 else CountLogicalLines(text))
              && output.previewText == Preview(head, tail)
              && (Bytes(text) <= previewLimit / 2 ==> output.previewText == text)
    {
      closed := true;
      AppendPreview(decoder.end(state));
      WholeFits(pieces, previewLimit / 2, previewLimit - previewLimit / 2);
      output := CapturedOutput(
        head + (if tail != [] && head != tail then tail else []),
        totalBytes,
        if totalBytes == 0 then 0 else lineBreaks + if lastCharWasNewline then 0 else 1,
        capturedBytes == totalBytes,
        binary);
    }
  }

  // ---------------------------------------------------------------- what the preview is

  lemma PieceAdded(pieces: seq<string>, piece: string, limit: nat)
    ensures Concat(pieces + [piece]) == Concat(pieces) + piece
    ensures StreamedHead(pieces + [piece], limit) ==
            var head := StreamedHead(pieces, limit);
            if piece != [] && Bytes(head) < limit then TakeHead(head + piece, limit) else head
  {
    hide Bytes, TakeHead;
    assert (pieces + [piece])[..|pieces|] == pieces;
  }

  lemma TailWithin(text: string, outer: nat, inner: nat)
    requires inner <= outer
    ensures TakeTail(TakeTail(text, outer), inner) == TakeTail(text, inner)
  {
    hide TakeTail, Bytes;
    TailFits(text, outer);
    var k := |text| - |TakeTail(text, outer)|;
    if k > 0 { assert Bytes(text[k - 1..]) > inner; }
    TailShift(text, k, inner);
  }

  lemma TailIsEmpty(pieces: seq<string>, headLimit: nat, limit: nat)
    requires limit >= 4
    ensures TakeTail(Concat(pieces), limit) == [] ==> Concat(pieces) == [] && StreamedHead(pieces, headLimit) == []
  {
    hide TakeTail, Bytes, TakeHead;
    var text := Concat(pieces);
    TailFits(text, limit);
    if TakeTail(text, limit) == [] {
      if text != [] {
        assert text[|text| - 1..] == [text[|text| - 1]];
        BytesOne(text[|text| - 1]);
        assert false;
      }
      NothingStreamed(pieces, headLimit);
    }
  }

  lemma {:induction false} NothingStreamed(pieces: seq<string>, limit: nat)
    requires Concat(pieces) == []
    ensures StreamedHead(pieces, limit) == []
  {
    if pieces != [] { NothingStreamed(pieces[..|pieces| - 1], limit); }
  }

  lemma WholeFits(pieces: seq<string>, headLimit: nat, tailLimit: nat)
    requires headLimit <= tailLimit
    ensures var text := Concat(pieces);
            Bytes(text) <= headLimit ==> StreamedHead(pieces, headLimit) == text == TakeTail(text, tailLimit)
  {
    hide StreamedHead, Bytes;
    HeadExactly(pieces, headLimit);
  }

  /** The head is the longest prefix of the stream that fits, whatever the chunks, exactly when no
    * later piece begins with a character that fits where an earlier one did not. */
  lemma HeadIsPrefixExactly(pieces: seq<string>, limit: nat)
    ensures StreamedHead(pieces, limit) == TakeHead(Concat(pieces), limit) <==>
            forall j | 0 <= j < |pieces| :: !SlipsIn(pieces, limit, j)
  {
    hide SlipsIn, StreamedHead, TakeHead, Bytes;
    HeadExactly(pieces, limit);
  }

  /** One-byte characters leave no gap to slip into. */
  lemma OneByteHead(pieces: seq<string>, limit: nat)
    requires OneByte(Concat(pieces))
    ensures StreamedHead(pieces, limit) == TakeHead(Concat(pieces), limit)
  {
    hide StreamedHead, TakeHead, Bytes, Concat;
    HeadIsPrefixExactly(pieces, limit);
    forall j | 0 <= j < |pieces| ensures !SlipsIn(pieces, limit, j) {
      var before := Concat(pieces[..j]);
      ConcatPrefix(pieces, j);
      assert OneByte(before) by { assert forall i | 0 <= i < |before| :: before[i] == Concat(pieces)[i]; }
      OneByteBytes(before);
      OneByteEnds(before, limit);
      if |before| > limit { OneByteBytes(before[..limit]); }
    }
  }

  lemma {:induction false} ConcatPrefix(pieces: seq<string>, j: nat)
    requires j <= |pieces|
    ensures |Concat(pieces[..j])| <= |Concat(pieces)| && Concat(pieces)[..|Concat(pieces[..j])|] == Concat(pieces[..j])
  {
    var n := |pieces|;
    if j == n {
      assert pieces[..j] == pieces;
    } else {
      ConcatPrefix(pieces[..n - 1], j);
      assert pieces[..n - 1][..j] == pieces[..j];
    }
  }

  function Repeat(c: char, n: nat): string { seq(n, i requires 0 <= i < n => c) }

  /** With wider characters it can fail, for every limit: here `b` slips in before the missing `é`. */
  lemma HeadCanSkip(limit: nat)
    requires limit > 0
    ensures var pieces := [Repeat('a', limit - 1) + [0xE9 as char], "b"];
            StreamedHead(pieces, limit) != TakeHead(Concat(pieces), limit)
  {
    hide StreamedHead, TakeHead, Bytes;
    var run := Repeat('a', limit - 1);
    var first := run + [0xE9 as char];
    var pieces := [first, "b"];
    OneByteBytes(run);
    BytesOne(0xE9 as char);
    BytesJoin(run, [0xE9 as char]);
    assert first[..limit - 1] == run && first[..limit] == first;
    HeadIs(first, limit, limit - 1);
    assert pieces[..1] == [first] && [first][..0] == [];
    assert Concat([first]) == Concat([]) + first == first;
    assert SlipsIn(pieces, limit, 1);
    HeadIsPrefixExactly(pieces, limit);
  }

  // ---------------------------------------------------------------- when the preview is the stream

  /** `previewText` of `finish`. */
  function Preview(head: string, tail: string): string { head + (if head != tail then tail else []) }

  ghost predicate NothingSlipsIn(pieces: seq<string>, limit: nat)
  {
    forall j | 0 <= j < |pieces| :: !SlipsIn(pieces, limit, j)
  }

  /** Two ends of a text make it up exactly when their lengths add up. */
  lemma EndsMeet(text: string, head: string, tail: string)
    requires head <= text && |tail| <= |text| && tail == text[|text| - |tail|..]
    ensures head + tail == text <==> |head| + |tail| == |text|
  {
    if |head| + |tail| == |text| { assert text == text[..|head|] + text[|head|..]; }
  }

  /** Prefixes of one text are ordered by their bytes. */
  lemma LongerPrefix(text: string, head: string, limit: nat)
    requires head <= text && Bytes(head) <= limit
    ensures Bytes(head) <= Bytes(TakeHead(text, limit))
  {
    hide Bytes, TakeHead;
    HeadFits(text, limit);
    var k := |TakeHead(text, limit)|;
    assert text[..|head|] == head;
    if |head| <= k { BytesUpTo(text, |head|, k); } else { BytesUpTo(text, k + 1, |head|); }
  }

  /** The stream fits the head, or nothing slipped into the head and the two ends differ and meet. */
  ghost predicate ShowsAll(pieces: seq<string>, headLimit: nat, tailLimit: nat)
  {
    var text, head := Concat(pieces), StreamedHead(pieces, headLimit);
    var tail := TakeTail(text, tailLimit);
    Bytes(text) <= headLimit || (NothingSlipsIn(pieces, headLimit) && head != tail && |head| + |tail| == |text|)
  }

  /** Whatever the chunks and the characters, the preview is the stream exactly then. */
  lemma PreviewIsStreamExactly(pieces: seq<string>, headLimit: nat, tailLimit: nat)
    requires headLimit <= tailLimit
    ensures var text, head := Concat(pieces), StreamedHead(pieces, headLimit);
            var tail := TakeTail(text, tailLimit);
            Preview(head, tail) == text <==> ShowsAll(pieces, headLimit, tailLimit)
  {
    hide StreamedHead, TakeHead, TakeTail, Bytes, SlipsIn, Concat;
    var text, head := Concat(pieces), StreamedHead(pieces, headLimit);
    var tail := TakeTail(text, tailLimit);
    WholeFits(pieces, headLimit, tailLimit);
    HeadExactly(pieces, headLimit);
    HeadFits(text, headLimit);
    TailFits(text, tailLimit);
    if Bytes(text) > headLimit {
      if NothingSlipsIn(pieces, headLimit) {
        EndsMeet(text, head, tail);
      } else if head <= text {
        LongerPrefix(text, head, headLimit);
      }
    }
  }

  /** The view takes a preview for the whole output when it has at least as many bytes as the stream
    * (src/bash-tool/output-view.ts, line 33), whatever the decoder made of them. That is wrong exactly when
    * the two ends, or the one if they are equal, weigh as much as the stream, and do not show all of it. */
  lemma MistakenForWholeExactly<S>(decoder: Decoder<S>, stream: seq<Byte>, pieces: seq<string>, headLimit: nat, tailLimit: nat)
    requires headLimit <= tailLimit && Concat(pieces) == Text(decoder, stream)
    ensures var text, head := Text(decoder, stream), StreamedHead(pieces, headLimit);
            var tail := TakeTail(text, tailLimit);
            |stream| <= Bytes(Preview(head, tail)) && Preview(head, tail) != text <==>
              |stream| <= Bytes(head) + (if head != tail then Bytes(tail) else 0) && !ShowsAll(pieces, headLimit, tailLimit)
  {
    hide StreamedHead, TakeTail, Bytes, NothingSlipsIn, Concat, Text;
    PreviewIsStreamExactly(pieces, headLimit, tailLimit);
    PreviewBytes(StreamedHead(pieces, headLimit), TakeTail(Concat(pieces), tailLimit));
  }

  lemma PreviewBytes(head: string, tail: string)
    ensures Bytes(Preview(head, tail)) == Bytes(head) + (if head != tail then Bytes(tail) else 0)
  {
    hide Bytes;
    BytesJoin(head, tail);
    assert head + [] == head;
  }

  /** For a stream that is valid UTF-8, and so weighs what its text weighs: exactly when the text does not
    * fit the head, and the two ends differ and overlap; or, when something slipped in, weigh as much. */
  lemma MistakenWhenDecodable(pieces: seq<string>, headLimit: nat, tailLimit: nat)
    requires headLimit <= tailLimit
    ensures var text, head := Concat(pieces), StreamedHead(pieces, headLimit);
            var tail := TakeTail(text, tailLimit);
            Bytes(text) <= Bytes(Preview(head, tail)) && Preview(head, tail) != text <==>
              && Bytes(text) > headLimit && head != tail
              && if NothingSlipsIn(pieces, headLimit) then |head| + |tail| > |text| else Bytes(head) + Bytes(tail) >= Bytes(text)
  {
    hide StreamedHead, TakeHead, TakeTail, Bytes, SlipsIn, Concat;
    var text, head := Concat(pieces), StreamedHead(pieces, headLimit);
    var tail := TakeTail(text, tailLimit);
    PreviewIsStreamExactly(pieces, headLimit, tailLimit);
    HeadExactly(pieces, headLimit);
    HeadFits(text, headLimit);
    TailFits(text, tailLimit);
    PreviewBytes(head, tail);
    if NothingSlipsIn(pieces, headLimit) { EndsWeigh(text, |head|, |text| - |tail|); }
  }

  const REPLACEMENT := 0xFFFD as char

  lemma {:induction false} ReplacedRun<S>(decoder: Decoder<S>, n: nat)
    requires decoder.step(decoder.start, 0xFF) == (decoder.start, [REPLACEMENT])
    ensures Decode(decoder, decoder.start, seq(n, _ => 0xFF)) == (decoder.start, Repeat(REPLACEMENT, n))
  {
    var stream: seq<Byte> := seq(n, _ => 0xFF);
    if n > 0 {
      ReplacedRun(decoder, n - 1);
      assert stream[..n - 1] == seq(n - 1, _ => 0xFF);
      assert Repeat(REPLACEMENT, n - 1) + [REPLACEMENT] == Repeat(REPLACEMENT, n);
    }
  }

  /** Where nothing can be decoded, a third of the preview's characters are enough: bytes that are each
    * replaced are taken for whole although their two ends are equal, for every limit. */
  lemma ReplacedBytesAreMistaken<S>(decoder: Decoder<S>, previewLimit: nat, n: nat)
    requires decoder.step(decoder.start, 0xFF) == (decoder.start, [REPLACEMENT]) && decoder.end(decoder.start) == []
    requires previewLimit >= 1024 && previewLimit / 2 / 3 < n <= 3 * (previewLimit / 2 / 3) && n != 2 * (previewLimit / 2 / 3) + 1
    ensures var stream: seq<Byte> := seq(n, _ => 0xFF);
            var text := Text(decoder, stream);
            var head, tail := StreamedHead([text], previewLimit / 2), TakeTail(text, previewLimit - previewLimit / 2);
            |stream| <= Bytes(Preview(head, tail)) && Preview(head, tail) != text
  {
    hide StreamedHead, TakeHead, TakeTail, Bytes, Concat, Decode;
    ReplacedRun(decoder, n);
    var text, h := Repeat(REPLACEMENT, n), previewLimit / 2 / 3;
    assert Text(decoder, seq(n, _ => 0xFF)) == text;
    WholeHead(text, previewLimit / 2);
    UniformEnds(text, 3, previewLimit / 2);
    UniformEnds(text, 3, previewLimit - previewLimit / 2);
    var head, tail := TakeHead(text, previewLimit / 2), TakeTail(text, previewLimit - previewLimit / 2);
    assert |head| == h;
    assert |tail| == h || |tail| == h + 1;
    assert |tail| == h ==> head == tail;
    UniformBytes(head, 3);
    PreviewBytes(head, tail);
    assert |Preview(head, tail)| == h || |Preview(head, tail)| == 2 * h + 1;
  }

  /** Of a stream in one chunk the head is the prefix. */
  lemma WholeHead(text: string, limit: nat)
    requires limit > 0
    ensures StreamedHead([text], limit) == TakeHead(text, limit)
  {
    hide TakeHead;
    assert [text][..0] == [] && [] + text == text;
    HeadWhole([], limit);
  }

  /** For every limit there is such a stream: one character longer than the head. */
  lemma OneMoreThanTheHead(previewLimit: nat)
    requires previewLimit >= 1024
    ensures var pieces := [Repeat('a', previewLimit / 2) + "b"];
            var text, head := Concat(pieces), StreamedHead(pieces, previewLimit / 2);
            var tail := TakeTail(text, previewLimit - previewLimit / 2);
            Bytes(text) <= Bytes(Preview(head, tail)) && Preview(head, tail) != text
  {
    hide StreamedHead, TakeHead, TakeTail, Bytes, SlipsIn, Concat, NothingSlipsIn;
    var text := Repeat('a', previewLimit / 2) + "b";
    var pieces := [text];
    OnePiece(text);
    OneByteHead(pieces, previewLimit / 2);
    PrefixSlips(pieces, previewLimit / 2);
    OneByteBytes(text);
    OneByteEnds(text, previewLimit / 2);
    OneByteEnds(text, previewLimit - previewLimit / 2);
    MistakenWhenDecodable(pieces, previewLimit / 2, previewLimit - previewLimit / 2);
    LastDiffers(text, TakeHead(text, previewLimit / 2), TakeTail(text, previewLimit - previewLimit / 2));
  }

  lemma OnePiece(text: string)
    ensures Concat([text]) == text
  {
    assert [text][..0] == [] && [] + text == text;
  }

  lemma PrefixSlips(pieces: seq<string>, limit: nat)
    requires StreamedHead(pieces, limit) == TakeHead(Concat(pieces), limit)
    ensures NothingSlipsIn(pieces, limit)
  {
    hide StreamedHead, TakeHead, SlipsIn, Concat;
    HeadIsPrefixExactly(pieces, limit);
  }

  /** The one odd character is in the tail and not in the head. */
  lemma LastDiffers(text: string, head: string, tail: string)
    requires text != [] && forall i | 0 <= i < |text| - 1 :: text[i] != text[|text| - 1]
    requires head <= text && 0 < |head| < |text| && 0 < |tail| <= |text| && tail == text[|text| - |tail|..]
    ensures head != tail
  {
    assert head[|head| - 1] == text[|head| - 1] && tail[|tail| - 1] == text[|text| - 1];
  }
}
