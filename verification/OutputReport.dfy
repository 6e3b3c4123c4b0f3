/** From the bytes of a command to what is reported of them: src/bash-tool/bash-tool.ts, lines 131-145, and
  * src/bash-tool/output-view.ts, lines 28-53. */
module OutputReport {
  import opened OutputCapture
  import opened OutputPreview
  import opened OutputText
  import opened OutputView

  predicate Uncut(outputState: OutputState) { outputState.Complete? || outputState.Compacted? }

  /** A preview that leaves room in the head for one more character is the whole of the text. */
  lemma SmallPreviewIsWhole(pieces: seq<string>, headLimit: nat, tailLimit: nat)
    requires headLimit <= tailLimit
    requires Bytes(Preview(StreamedHead(pieces, headLimit), TakeTail(Concat(pieces), tailLimit))) + 4 <= headLimit
    ensures Preview(StreamedHead(pieces, headLimit), TakeTail(Concat(pieces), tailLimit)) == Concat(pieces)
  {
    hide StreamedHead, TakeHead, TakeTail, Bytes, NothingSlipsIn, Concat, SlipsIn;
    var text, head := Concat(pieces), StreamedHead(pieces, headLimit);
    PreviewIsStreamExactly(pieces, headLimit, tailLimit);
    PreviewBytes(head, TakeTail(text, tailLimit));
    HeadExactly(pieces, headLimit);
    HeadFits(text, headLimit);
    var k := |TakeHead(text, headLimit)|;
    if k < |text| {
      assert text[..k + 1] == text[..k] + [text[k]];
      BytesJoin(text[..k], [text[k]]);
      BytesOne(text[k]);
    } else {
      assert text[..k] == text;
    }
  }

  /** The last steps of the tool. An output is reported complete or compacted exactly when all of it is in the
    * file, its preview is at least as long, and the cleaned preview fits the budget; it is then shown
    * cleaned from all of the output exactly when the preview shows all. That is so whenever the preview
    * was limited to four budgets and cleaning took no bytes away. */
  method Report<S>(capture: OutputCapture<S>, show: nat -> string, anchor: string -> bool,
                   detect: string -> Format, clean: (string, Format) -> (string, bool), failed: bool, budget: nat)
    returns (output: CapturedOutput, body: string, outputState: OutputState, keepLog: bool)
    requires capture.Valid() && !capture.closed
    modifies capture
    ensures capture.Valid() && capture.closed && capture.stream == old(capture.stream)
    ensures var stream, whole := capture.stream, Text(capture.decoder, capture.stream);
            var format := if 0 in stream then Structured("binary") else detect(output.previewText);
            var (cleaned, compacted) := clean(output.previewText, format);
            && output.previewText == Preview(capture.head, capture.tail)
            && (Uncut(outputState) <==>
                  |stream| <= capture.maxCaptureBytes && |stream| <= Bytes(output.previewText) && Bytes(cleaned) <= budget)
            && (Uncut(outputState) ==> body == cleaned && (outputState.Compacted? <==> compacted))
            && (output.previewText == whole <==>
                  ShowsAll(capture.pieces, capture.previewLimit / 2, capture.previewLimit - capture.previewLimit / 2))
            && (Uncut(outputState) && 4 * budget <= capture.previewLimit && Bytes(output.previewText) <= Bytes(cleaned) ==>
                  output.previewText == whole)
            && (outputState.CaptureTruncated? <==> |stream| > capture.maxCaptureBytes)
            && (keepLog <==> failed || !outputState.Complete?)
    ensures budget >= 43 ==> Bytes(body) <= budget
  {
    hide StreamedHead, TakeHead, TakeTail, Bytes, Concat, Text, ShowsAll, CutTo, EnsureByteLimit, CountLogicalLines;
    output := capture.Finish();
    var limit := capture.previewLimit;
    Finished(capture);
    PreviewIsStreamExactly(capture.pieces, limit / 2, limit - limit / 2);
    var format := if output.binary then Structured("binary") else detect(output.previewText);
    var (cleaned, compacted) := clean(output.previewText, format);
    body, outputState, keepLog :=
      CreateView(show, anchor, output.previewText, cleaned, compacted, format, output.totalBytes, output.captureComplete, failed, budget);
    if Bytes(output.previewText) + 4 <= limit / 2 { SmallPreviewIsWhole(capture.pieces, limit / 2, limit - limit / 2); }
  }

  lemma Finished<S>(capture: OutputCapture<S>)
    requires capture.Valid() && capture.closed
    ensures capture.previewLimit >= 1024 && Concat(capture.pieces) == Text(capture.decoder, capture.stream)
    ensures capture.head == StreamedHead(capture.pieces, capture.previewLimit / 2)
    ensures capture.tail == TakeTail(Concat(capture.pieces), capture.previewLimit - capture.previewLimit / 2)
  {
  }
}
