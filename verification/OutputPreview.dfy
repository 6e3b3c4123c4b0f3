/** What is shown of an output over its budget, and what the view reports: src/bash-tool/output-view.ts,
  * lines 28-71, 140-158, 223-230 and 263-289. */
module OutputPreview {
  import opened OutputShown
  import opened OutputText
  import opened OutputView
  import opened Strings

  // ---------------------------------------------------------------- first and last lines

  /** Bytes of the lines with a newline each. */
  function LineBytes(lines: seq<string>): nat
  {
    if lines == [] then 0 else LineBytes(lines[..|lines| - 1]) + Bytes(lines[|lines| - 1]) + 1
  }

  /** The longest run of lines from the start within a budget: so many fit, and one more would not. */
  ghost predicate FirstFit(lines: seq<string>, budget: nat, count: nat)
  {
    && count <= |lines| && LineBytes(lines[..count]) <= budget
    && (count < |lines| ==> LineBytes(lines[..count + 1]) > budget)
  }

  ghost predicate LastFit(lines: seq<string>, budget: nat, count: nat)
  {
    && count <= |lines| && LineBytes(lines[|lines| - count..]) <= budget
    && (count < |lines| ==> LineBytes(lines[|lines| - count - 1..]) > budget)
  }

  method ByteLimitedLines(lines: seq<string>, budget: nat) returns (count: nat)
    ensures FirstFit(lines, budget, count)
  {
    hide Bytes;
    count := 0;
    var used := 0;
    while count < |lines|
      invariant count <= |lines| && used == LineBytes(lines[..count]) <= budget
    {
      assert lines[..count + 1][..count] == lines[..count];
      var size := Bytes(lines[count]) + 1;
      if used + size > budget { return; }
      used := used + size;
      count := count + 1;
    }
  }

  lemma {:induction false} LineBytesJoin(a: seq<string>, b: seq<string>)
    ensures LineBytes(a + b) == LineBytes(a) + LineBytes(b)
  {
    hide Bytes;
    if b == [] {
      assert a + b == a;
    } else {
      assert (a + b)[..|a| + |b| - 1] == a + b[..|b| - 1];
      LineBytesJoin(a, b[..|b| - 1]);
    }
  }

  method ByteLimitedTailLines(lines: seq<string>, budget: nat) returns (count: nat)
    ensures LastFit(lines, budget, count)
  {
    hide Bytes, LineBytes;
    count := 0;
    var used, index := 0, |lines|;
    OneLine("");
    assert lines[index..] == [];
    while index > 0
      invariant 0 <= index <= |lines| && count == |lines| - index && used == LineBytes(lines[index..]) <= budget
    {
      index := index - 1;
      assert lines[index..] == [lines[index]] + lines[index + 1..];
      LineBytesJoin([lines[index]], lines[index + 1..]);
      OneLine(lines[index]);
      var size := Bytes(lines[index]) + 1;
      if used + size > budget { return; }
      used := used + size;
      count := count + 1;
    }
  }

  lemma OneLine(line: string)
    ensures LineBytes([]) == 0 && LineBytes([line]) == Bytes(line) + 1
  {
    assert [line][..0] == [];
  }

  /** From two lines before an anchor to three after it. */
  ghost predicate Near(lines: seq<string>, anchor: string -> bool, k: int)
  {
    exists i | 0 <= i < |lines| :: anchor(lines[i]) && 0 <= k < |lines| && i - 2 <= k <= i + 3
  }

  function Window(lines: seq<string>, i: nat): Range
    requires i < |lines|
  {
    Range(Max(0, i - 2), Min(|lines| - 1, i + 3))
  }

  method DiagnosticWindows(lines: seq<string>, anchor: string -> bool) returns (windows: seq<Range>)
    ensures Spread(windows) && Within(windows, 0, |lines|)
    ensures forall k :: Covers(windows, k) <==> Near(lines, anchor, k)
  {
    hide Covers, Near, Spread, Within;
    var ranges: seq<Range> := [];
    var index := 0;
    forall k ensures !Covers([], k) && !Near(lines[..0], anchor, k) { NearNothing(lines, anchor, k); }
    while index < |lines|
      invariant index <= |lines| && Bounded(ranges, 0, |lines|)
      invariant forall k :: Covers(ranges, k) <==> NearUpTo(lines, anchor, index, k)
    {
      forall k ensures NearUpTo(lines, anchor, index + 1, k) <==>
                       NearUpTo(lines, anchor, index, k) || (anchor(lines[index]) && Window(lines, index).start <= k <= Window(lines, index).end)
      {
        NearOne(lines, anchor, index, k);
      }
      if anchor(lines[index]) {
        forall k ensures Covers(ranges + [Window(lines, index)], k) <==> Covers(ranges, k) || Window(lines, index).start <= k <= Window(lines, index).end {
          CoversAdd(ranges, Window(lines, index), k);
        }
        ranges := ranges + [Window(lines, index)];
      }
      index := index + 1;
    }
    forall k ensures NearUpTo(lines, anchor, |lines|, k) <==> Near(lines, anchor, k) { NearAll(lines, anchor, k); }
    windows := MergeRanges(ranges);
  }

  ghost predicate NearUpTo(lines: seq<string>, anchor: string -> bool, n: nat, k: int)
    requires n <= |lines|
  {
    exists i | 0 <= i < n :: anchor(lines[i]) && 0 <= k < |lines| && i - 2 <= k <= i + 3
  }

  lemma NearNothing(lines: seq<string>, anchor: string -> bool, k: int)
    ensures !Covers([], k) && !Near(lines[..0], anchor, k) && !NearUpTo(lines, anchor, 0, k)
  {
  }

  lemma NearOne(lines: seq<string>, anchor: string -> bool, n: nat, k: int)
    requires n < |lines|
    ensures NearUpTo(lines, anchor, n + 1, k) <==>
            NearUpTo(lines, anchor, n, k) || (anchor(lines[n]) && Window(lines, n).start <= k <= Window(lines, n).end)
  {
    var w := Window(lines, n);
    assert w.start <= k <= w.end <==> 0 <= k < |lines| && n - 2 <= k <= n + 3;
  }

  lemma NearAll(lines: seq<string>, anchor: string -> bool, k: int)
    ensures NearUpTo(lines, anchor, |lines|, k) <==> Near(lines, anchor, k)
  {
  }

  ghost predicate Shows(lines: seq<string>, ranges: seq<Range>, head: nat, windows: seq<Range>, tail: nat)
  {
    && Spread(ranges) && Within(ranges, 0, |lines|)
    && forall k :: Covers(ranges, k) <==> 0 <= k < head || Covers(windows, k) || |lines| - tail <= k < |lines|
  }

  /** The first lines, the windows and the last lines, merged. */
  method ShownRanges(lines: seq<string>, head: nat, windows: seq<Range>, tail: nat) returns (ranges: seq<Range>)
    requires head <= |lines| && tail <= |lines| && Spread(windows) && Within(windows, 0, |lines|)
    ensures Shows(lines, ranges, head, windows, tail)
  {
    hide Covers;
    var first := if head > 0 then [Range(0, head - 1)] else [];
    var last := if tail > 0 then [Range(|lines| - tail, |lines| - 1)] else [];
    var all := first + windows + last;
    forall k ensures Covers(all, k) <==> 0 <= k < head || Covers(windows, k) || |lines| - tail <= k < |lines| {
      CoversJoin(first + windows, last, k);
      CoversJoin(first, windows, k);
      CoversOne(head, k);
      CoversLast(|lines|, tail, k);
    }
    assert Bounded(all, 0, |lines|);
    ranges := MergeRanges(all);
  }

  lemma CoversJoin(a: seq<Range>, b: seq<Range>, k: int)
    ensures Covers(a + b, k) <==> Covers(a, k) || Covers(b, k)
  {
    if i :| 0 <= i < |a| && a[i].start <= k <= a[i].end { assert (a + b)[i] == a[i]; }
    if i :| 0 <= i < |b| && b[i].start <= k <= b[i].end { assert (a + b)[|a| + i] == b[i]; }
  }

  lemma CoversOne(head: nat, k: int)
    ensures Covers(if head > 0 then [Range(0, head - 1)] else [], k) <==> 0 <= k < head
  {
    if head > 0 { assert [Range(0, head - 1)][0].end == head - 1; }
  }

  lemma CoversLast(count: nat, tail: nat, k: int)
    requires tail <= count
    ensures Covers(if tail > 0 then [Range(count - tail, count - 1)] else [], k) <==> count - tail <= k < count
  {
    if tail > 0 { assert [Range(count - tail, count - 1)][0].end == count - 1; }
  }

  // ---------------------------------------------------------------- a failed command

  /** What the preview of a failure is made of: so many first lines, the windows of diagnostics, and so
    * many last lines. */
  datatype Selection = Selection(head: nat, windows: seq<Range>, tail: nat)

  ghost predicate Selects(anchor: string -> bool, lines: seq<string>, budget: nat, s: Selection)
  {
    && FirstFit(lines, budget * 15 / 100, s.head)
    && LastFit(lines, budget / 5, s.tail)
    && Spread(s.windows) && Within(s.windows, 0, |lines|)
    && forall k :: Covers(s.windows, k) <==> Near(lines, anchor, k)
  }

  /** The first and the last of them, which may be the same one. */
  ghost predicate EndsOf(windows: seq<Range>, ends: seq<Range>)
  {
    && 1 <= |ends| <= 2 && (|ends| == 1 <==> |windows| == 1)
    && windows != [] && ends[0] == windows[0] && ends[|ends| - 1] == windows[|windows| - 1]
  }

  lemma EndWindowsAre(windows: seq<Range>, ends: seq<Range>)
    requires windows != []
    ensures EndsOf(windows, ends) <==> ends == EndWindows(windows)
  {
  }

  function EndWindows(windows: seq<Range>): seq<Range>
    requires windows != []
  {
    if |windows| == 1 then windows else [windows[0], windows[|windows| - 1]]
  }

  ghost predicate RendersAs(show: nat -> string, lines: seq<string>, head: nat, windows: seq<Range>, tail: nat, rendered: string)
  {
    exists ranges :: Shows(lines, ranges, head, windows, tail) && rendered == Rendered(show, lines, ranges)
  }

  /** With every window if that fits the budget, else with the first and the last one only. */
  ghost predicate SelectionShown(show: nat -> string, lines: seq<string>, budget: nat, s: Selection, preview: string)
    requires s.windows != []
  {
    exists full ::
      && RendersAs(show, lines, s.head, s.windows, s.tail, full)
      && if Bytes(full) <= budget then preview == full
         else exists ends, fewer :: EndsOf(s.windows, ends) && RendersAs(show, lines, s.head, ends, s.tail, fewer) && LimitedTo(fewer, budget, preview)
  }

  /** `failurePreview`: without a diagnostic the head and the tail, otherwise a selection of lines. */
  ghost predicate FailureShownAs(show: nat -> string, anchor: string -> bool, text: string, budget: nat, preview: string)
  {
    var lines := SplitLines(text);
    if forall i | 0 <= i < |lines| :: !anchor(lines[i]) then HeadTailShown(show, text, budget, 15, preview)
    else exists s :: Selects(anchor, lines, budget, s) && s.windows != [] && SelectionShown(show, lines, budget, s, preview)
  }

  method FailurePreview(show: nat -> string, anchor: string -> bool, text: string, budget: nat) returns (preview: string)
    ensures FailureShownAs(show, anchor, text, budget, preview)
  {
    hide Covers, Near, Bytes, Rendered, HeadTailPreview, HeadTailShown, LimitedTo, EnsureByteLimit, Join, SplitLines, FirstFit, LastFit, RendersAs;
    var lines := SplitLines(text);
    var windows := DiagnosticWindows(lines, anchor);
    WindowsFound(lines, anchor, windows);
    if windows == [] {
      preview := HeadTailPreview(show, text, budget, 15);
      HeadTailShownIs(show, text, budget, 15, preview);
      return;
    }
    var head := ByteLimitedLines(lines, budget * 15 / 100);
    var tail := ByteLimitedTailLines(lines, budget / 5);
    FitsWithin(lines, budget * 15 / 100, head, budget / 5, tail);
    assert Selects(anchor, lines, budget, Selection(head, windows, tail));
    var full := RenderSelection(show, lines, head, windows, tail);
    preview := full;
    if Bytes(full) > budget {
      EndWindowsAre(windows, EndWindows(windows));
      preview := RenderSelection(show, lines, head, EndWindows(windows), tail);
    }
    var fewer := preview;
    FitsUnchanged(fewer, budget);
    preview := EnsureByteLimit(fewer, budget);
    LimitedToIs(fewer, budget, preview);
    assert SelectionShown(show, lines, budget, Selection(head, windows, tail), preview);
  }

  method RenderSelection(show: nat -> string, lines: seq<string>, head: nat, windows: seq<Range>, tail: nat) returns (rendered: string)
    requires head <= |lines| && tail <= |lines| && Spread(windows) && Within(windows, 0, |lines|)
    ensures RendersAs(show, lines, head, windows, tail, rendered)
  {
    hide Covers, Rendered;
    var ranges := ShownRanges(lines, head, windows, tail);
    rendered := RenderRanges(show, lines, ranges);
  }

  lemma FitsWithin(lines: seq<string>, headBudget: nat, head: nat, tailBudget: nat, tail: nat)
    requires FirstFit(lines, headBudget, head) && LastFit(lines, tailBudget, tail)
    ensures head <= |lines| && tail <= |lines|
  {
  }

  lemma FitsUnchanged(text: string, budget: nat)
    ensures Bytes(text) <= budget ==> EnsureByteLimit(text, budget) == text
  {
  }

  lemma WindowsFound(lines: seq<string>, anchor: string -> bool, windows: seq<Range>)
    requires Spread(windows) && forall k :: Covers(windows, k) <==> Near(lines, anchor, k)
    ensures windows == [] <==> forall i | 0 <= i < |lines| :: !anchor(lines[i])
  {
    if windows != [] {
      assert Covers(windows, windows[0].start);
      assert Near(lines, anchor, windows[0].start);
    }
    if i :| 0 <= i < |lines| && anchor(lines[i]) {
      assert Near(lines, anchor, i);
      assert Covers(windows, i);
    }
  }

  // ---------------------------------------------------------------- there is only one such preview

  lemma FirstFitUnique(lines: seq<string>, budget: nat, a: nat, b: nat)
    requires FirstFit(lines, budget, a) && FirstFit(lines, budget, b)
    ensures a == b
  {
    hide LineBytes;
    if a < b { FirstLinesGrow(lines, a + 1, b); } else if b < a { FirstLinesGrow(lines, b + 1, a); }
  }

  lemma FirstLinesGrow(lines: seq<string>, i: nat, j: nat)
    requires i <= j <= |lines|
    ensures LineBytes(lines[..i]) <= LineBytes(lines[..j])
  {
    hide LineBytes;
    assert lines[..j] == lines[..i] + lines[i..j];
    LineBytesJoin(lines[..i], lines[i..j]);
  }

  lemma LastFitUnique(lines: seq<string>, budget: nat, a: nat, b: nat)
    requires LastFit(lines, budget, a) && LastFit(lines, budget, b)
    ensures a == b
  {
    hide LineBytes;
    if a < b { LastLinesGrow(lines, a + 1, b); } else if b < a { LastLinesGrow(lines, b + 1, a); }
  }

  lemma LastLinesGrow(lines: seq<string>, i: nat, j: nat)
    requires i <= j <= |lines|
    ensures LineBytes(lines[|lines| - i..]) <= LineBytes(lines[|lines| - j..])
  {
    hide LineBytes;
    var n := |lines|;
    assert lines[n - j..] == lines[n - j..n - i] + lines[n - i..];
    LineBytesJoin(lines[n - j..n - i], lines[n - i..]);
  }

  lemma RendersUnique(show: nat -> string, lines: seq<string>, head: nat, windows: seq<Range>, tail: nat, a: string, b: string)
    requires RendersAs(show, lines, head, windows, tail, a) && RendersAs(show, lines, head, windows, tail, b)
    ensures a == b
  {
    hide Covers, Rendered;
    var r :| Shows(lines, r, head, windows, tail) && a == Rendered(show, lines, r);
    var s :| Shows(lines, s, head, windows, tail) && b == Rendered(show, lines, s);
    SpreadIsUnique(r, s);
  }

  lemma SelectionUnique(anchor: string -> bool, lines: seq<string>, budget: nat, a: Selection, b: Selection)
    requires Selects(anchor, lines, budget, a) && Selects(anchor, lines, budget, b)
    ensures a == b
  {
    hide Covers, Near, FirstFit, LastFit;
    FirstFitUnique(lines, budget * 15 / 100, a.head, b.head);
    LastFitUnique(lines, budget / 5, a.tail, b.tail);
    SpreadIsUnique(a.windows, b.windows);
  }

  lemma ShownUnique(show: nat -> string, lines: seq<string>, budget: nat, s: Selection, a: string, b: string)
    requires s.windows != [] && SelectionShown(show, lines, budget, s, a) && SelectionShown(show, lines, budget, s, b)
    ensures a == b
  {
    hide RendersAs, EnsureByteLimit, LimitedTo, Bytes, EndsOf, EndWindows;
    var full :| RendersAs(show, lines, s.head, s.windows, s.tail, full)
      && if Bytes(full) <= budget then a == full
         else exists ends, fewer :: EndsOf(s.windows, ends) && RendersAs(show, lines, s.head, ends, s.tail, fewer) && LimitedTo(fewer, budget, a);
    var same :| RendersAs(show, lines, s.head, s.windows, s.tail, same)
      && if Bytes(same) <= budget then b == same
         else exists ends, fewer :: EndsOf(s.windows, ends) && RendersAs(show, lines, s.head, ends, s.tail, fewer) && LimitedTo(fewer, budget, b);
    RendersUnique(show, lines, s.head, s.windows, s.tail, full, same);
    if Bytes(full) > budget {
      var e, x :| EndsOf(s.windows, e) && RendersAs(show, lines, s.head, e, s.tail, x) && LimitedTo(x, budget, a);
      var f, y :| EndsOf(s.windows, f) && RendersAs(show, lines, s.head, f, s.tail, y) && LimitedTo(y, budget, b);
      EndWindowsAre(s.windows, e);
      EndWindowsAre(s.windows, f);
      LimitedToIs(x, budget, a);
      LimitedToIs(y, budget, b);
      RendersUnique(show, lines, s.head, EndWindows(s.windows), s.tail, x, y);
    }
  }

  /** The description leaves nothing open: one text has one preview of its failure. */
  lemma FailurePreviewUnique(show: nat -> string, anchor: string -> bool, text: string, budget: nat, a: string, b: string)
    requires FailureShownAs(show, anchor, text, budget, a) && FailureShownAs(show, anchor, text, budget, b)
    ensures a == b
  {
    hide Selects, SelectionShown, HeadTailPreview, HeadTailShown, SplitLines;
    HeadTailShownIs(show, text, budget, 15, a);
    HeadTailShownIs(show, text, budget, 15, b);
    var lines := SplitLines(text);
    if i :| 0 <= i < |lines| && anchor(lines[i]) {
      var s :| Selects(anchor, lines, budget, s) && s.windows != [] && SelectionShown(show, lines, budget, s, a);
      var t :| Selects(anchor, lines, budget, t) && t.windows != [] && SelectionShown(show, lines, budget, t, b);
      SelectionUnique(anchor, lines, budget, s, t);
      ShownUnique(show, lines, budget, s, a, b);
    }
  }

  // ---------------------------------------------------------------- the view

  datatype Format = PlainText | Structured(name: string)
  datatype OutputState = Complete | Compacted | Truncated | CaptureTruncated

  /** The preview of an output over the budget, by its format and by how the command ended. */
  ghost predicate CutTo(show: nat -> string, anchor: string -> bool, cleaned: string, format: Format, failed: bool, budget: nat, preview: string)
  {
    match format
    case Structured(name) => StructuredShown(show, cleaned, name, budget, preview)
    case PlainText => if failed then FailureShownAs(show, anchor, cleaned, budget, preview) else HeadTailShown(show, cleaned, budget, 20, preview)
  }

  /** `source` is the preview of the capture, `cleaned` what cleaning made of it. */
  method CreateView(show: nat -> string, anchor: string -> bool, source: string, cleaned: string, compacted: bool, format: Format,
                    totalBytes: nat, captureComplete: bool, failed: bool, budget: nat)
    returns (body: string, outputState: OutputState, keepLog: bool)
    ensures budget >= 43 ==> Bytes(body) <= budget
    ensures Bytes(cleaned) <= budget ==> body == cleaned
    ensures Bytes(cleaned) > budget ==> exists preview :: CutTo(show, anchor, cleaned, format, failed, budget, preview) && LimitedTo(preview, budget, body)
    ensures outputState.Complete? || outputState.Compacted? <==> captureComplete && totalBytes <= Bytes(source) && Bytes(cleaned) <= budget
    ensures outputState.Complete? || outputState.Compacted? ==> body == cleaned && (outputState.Compacted? <==> compacted)
    ensures outputState.CaptureTruncated? <==> !captureComplete
    ensures keepLog <==> failed || !outputState.Complete?
  {
    hide Bytes, HeadTailPreview, HeadTailShown, StructuredPreview, StructuredShown, EnsureByteLimit, LimitedTo, FailureShownAs;
    var sourceComplete := captureComplete && totalBytes <= Bytes(source);
    var cut := if captureComplete then Truncated else CaptureTruncated;
    if format.Structured? && Bytes(cleaned) > budget {
      body := StructuredPreview(show, cleaned, format.name, budget);
      StructuredShownIs(show, cleaned, format.name, budget);
      outputState := cut;
    } else if !sourceComplete && Bytes(cleaned) <= budget {
      body := cleaned;
      outputState := cut;
    } else if !sourceComplete || Bytes(cleaned) > budget {
      if failed && format.PlainText? {
        body := FailurePreview(show, anchor, cleaned, budget);
      } else {
        body := HeadTailPreview(show, cleaned, budget, 20);
        HeadTailShownIs(show, cleaned, budget, 20, body);
      }
      outputState := cut;
    } else {
      body := cleaned;
      outputState := if compacted then Compacted else Complete;
    }
    LimitHoldsExactly(body, budget);
    FitsUnchanged(body, budget);
    LimitedToIs(body, budget, EnsureByteLimit(body, budget));
    body := EnsureByteLimit(body, budget);
    keepLog := outputState != Complete || failed;
  }
}
