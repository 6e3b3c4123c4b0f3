/** What the model is shown of a command's output: src/bash-tool/output-view.ts. Cleaning the text,
  * detecting its format and the pattern of diagnostics are parameters. */
module OutputView {
  import opened OutputText
  import opened Strings
  import opened Wrappers

  datatype Range = Range(start: int, end: int)

  ghost predicate Covers(ranges: seq<Range>, k: int)
  {
    exists i | 0 <= i < |ranges| :: ranges[i].start <= k <= ranges[i].end
  }

  /** In order, with a gap between any two. */
  ghost predicate Spread(ranges: seq<Range>)
  {
    && (forall i | 0 <= i < |ranges| :: ranges[i].start <= ranges[i].end)
    && (forall i, j | 0 <= i < j < |ranges| :: ranges[i].end + 1 < ranges[j].start)
  }

  ghost predicate Within(ranges: seq<Range>, low: int, high: int)
  {
    forall i | 0 <= i < |ranges| :: low <= ranges[i].start && ranges[i].end < high
  }

  // ---------------------------------------------------------------- merging

  predicate Sorted(ranges: seq<Range>)
  {
    forall i, j | 0 <= i < j < |ranges| :: ranges[i].start <= ranges[j].start
  }

  /** Stable insertion by start. */
  function InsertRange(ranges: seq<Range>, r: Range): (after: seq<Range>)
    ensures forall x :: x in after <==> x == r || x in ranges
  {
    if ranges == [] || ranges[|ranges| - 1].start <= r.start then ranges + [r]
    else
      var last := |ranges| - 1;
      assert ranges == ranges[..last] + [ranges[last]];
      InsertRange(ranges[..last], r) + [ranges[last]]
  }

  lemma {:induction false} InsertSorted(ranges: seq<Range>, r: Range)
    requires Sorted(ranges)
    ensures Sorted(InsertRange(ranges, r))
  {
    if ranges != [] && ranges[|ranges| - 1].start > r.start {
      var last := |ranges| - 1;
      InsertSorted(ranges[..last], r);
      var front := InsertRange(ranges[..last], r);
      forall i | 0 <= i < |front| ensures front[i].start <= ranges[last].start {
        assert front[i] in front;
      }
    }
  }

  /** `ranges.filter(nonempty).sort(by start)` */
  function SortRanges(ranges: seq<Range>): (sorted: seq<Range>)
    ensures forall x :: x in sorted <==> x in ranges && x.start <= x.end
  {
    if ranges == [] then []
    else
      var last := |ranges| - 1;
      assert ranges == ranges[..last] + [ranges[last]];
      var before := SortRanges(ranges[..last]);
      if ranges[last].start <= ranges[last].end then InsertRange(before, ranges[last]) else before
  }

  lemma {:induction false} SortSorts(ranges: seq<Range>)
    ensures Sorted(SortRanges(ranges))
  {
    if ranges != [] {
      SortSorts(ranges[..|ranges| - 1]);
      InsertSorted(SortRanges(ranges[..|ranges| - 1]), ranges[|ranges| - 1]);
    }
  }

  ghost predicate Bounded(ranges: seq<Range>, low: int, high: int)
  {
    forall r | r in ranges && r.start <= r.end :: low <= r.start && r.end < high
  }

  lemma SortCovers(ranges: seq<Range>, k: int)
    ensures Covers(SortRanges(ranges), k) <==> Covers(ranges, k)
  {
    hide SortRanges;
    var sorted := SortRanges(ranges);
    if i :| 0 <= i < |sorted| && sorted[i].start <= k <= sorted[i].end {
      assert sorted[i] in ranges;
    }
    if i :| 0 <= i < |ranges| && ranges[i].start <= k <= ranges[i].end {
      assert ranges[i] in ranges && ranges[i] in sorted;
    }
  }

  /** The last range of a result, stretched to hold one more. */
  lemma Stretch(result: seq<Range>, r: Range, k: int)
    requires result != [] && Spread(result) && r.start <= r.end
    requires result[|result| - 1].start <= r.start <= result[|result| - 1].end + 1
    ensures var last := |result| - 1;
            var stretched := result[last := Range(result[last].start, if result[last].end > r.end then result[last].end else r.end)];
            Spread(stretched) && (Covers(stretched, k) <==> Covers(result, k) || r.start <= k <= r.end)
  {
    var last := |result| - 1;
    var stretched := result[last := Range(result[last].start, if result[last].end > r.end then result[last].end else r.end)];
    if i :| 0 <= i < |result| && result[i].start <= k <= result[i].end {
      assert stretched[i].start <= k <= stretched[i].end;
    } else if r.start <= k <= r.end {
      assert stretched[last].start <= k <= stretched[last].end;
    }
    if i :| 0 <= i < |stretched| && stretched[i].start <= k <= stretched[i].end {
      if i < last || k <= result[last].end { assert result[i].start <= k <= result[i].end; }
    }
  }

  lemma CoversAdd(ranges: seq<Range>, r: Range, k: int)
    ensures Covers(ranges + [r], k) <==> Covers(ranges, k) || r.start <= k <= r.end
  {
    var longer := ranges + [r];
    assert longer[|ranges|] == r;
    if i :| 0 <= i < |ranges| && ranges[i].start <= k <= ranges[i].end {
      assert longer[i] == ranges[i];
    }
  }

  /** In order, disjoint, with gaps, and covering exactly what the input covers. */
  method MergeRanges(ranges: seq<Range>) returns (result: seq<Range>)
    ensures Spread(result) && forall k :: Covers(result, k) <==> Covers(ranges, k)
    ensures forall low, high | Bounded(ranges, low, high) :: Within(result, low, high)
  {
    hide SortRanges, Covers;
    var sorted := SortRanges(ranges);
    SortSorts(ranges);
    result := [];
    var next := 0;
    assert forall k :: Covers([], k) <==> Covers(sorted[..0], k) by { assert sorted[..0] == []; }
    while next < |sorted|
      invariant next <= |sorted| && Spread(result)
      invariant result != [] ==> next > 0 && result[|result| - 1].start <= sorted[next - 1].start
      invariant forall k :: Covers(result, k) <==> Covers(sorted[..next], k)
      invariant forall low, high | Bounded(ranges, low, high) :: Within(result, low, high)
    {
      var r := sorted[next];
      assert r in sorted && sorted[..next + 1] == sorted[..next] + [r];
      forall k ensures Covers(sorted[..next + 1], k) <==> Covers(sorted[..next], k) || r.start <= k <= r.end {
        CoversAdd(sorted[..next], r, k);
      }
      ghost var before := result;
      if result == [] || r.start > result[|result| - 1].end + 1 {
        Append(result, r);
        result := result + [r];
        forall k ensures Covers(result, k) <==> Covers(before, k) || r.start <= k <= r.end { CoversAdd(before, r, k); }
      } else {
        var last := |result| - 1;
        result := result[last := Range(result[last].start, if result[last].end > r.end then result[last].end else r.end)];
        forall k ensures Covers(result, k) <==> Covers(before, k) || r.start <= k <= r.end { Stretch(before, r, k); }
        Stretch(before, r, r.start);
      }
      next := next + 1;
    }
    assert sorted[..next] == sorted;
    forall k ensures Covers(sorted, k) <==> Covers(ranges, k) { SortCovers(ranges, k); }
  }

  lemma Append(result: seq<Range>, r: Range)
    requires Spread(result) && r.start <= r.end && (result != [] ==> r.start > result[|result| - 1].end + 1)
    ensures Spread(result + [r])
  {
  }

  /** There is only one such list, so the contract says which one it is. */
  lemma {:induction false} SpreadIsUnique(a: seq<Range>, b: seq<Range>)
    requires Spread(a) && Spread(b) && forall k :: Covers(a, k) <==> Covers(b, k)
    ensures a == b
  {
    hide Covers;
    if a == [] || b == [] {
      if a != [] { CoversEnds(a); CoversNothing(a[0].start); assert false; }
      if b != [] { CoversEnds(b); CoversNothing(b[0].start); assert false; }
    } else {
      CoversEnds(a);
      CoversEnds(b);
      FirstCovered(a, b[0].start);
      FirstCovered(b, a[0].start);
      assert a[0] == b[0];
      forall k ensures Covers(a[1..], k) <==> Covers(b[1..], k) {
        CoversRest(a, k);
        CoversRest(b, k);
      }
      SpreadIsUnique(a[1..], b[1..]);
    }
  }

  lemma CoversNothing(k: int)
    ensures !Covers([], k)
  {
  }

  lemma CoversEnds(a: seq<Range>)
    requires Spread(a) && a != []
    ensures forall k | a[0].start <= k <= a[0].end :: Covers(a, k)
    ensures !Covers(a, a[0].end + 1)
  {
  }

  lemma FirstCovered(a: seq<Range>, k: int)
    requires Spread(a) && a != [] && Covers(a, k)
    ensures k >= a[0].start && k != a[0].end + 1
  {
  }

  lemma CoversRest(a: seq<Range>, k: int)
    requires Spread(a) && a != []
    ensures Covers(a[1..], k) <==> Covers(a, k) && k > a[0].end
  {
    if i :| 0 <= i < |a| && a[i].start <= k <= a[i].end {
      if i > 0 { assert a[1..][i - 1] == a[i]; }
    }
  }

  // ---------------------------------------------------------------- rendering

  datatype Part = Line(text: string) | Omitted(count: nat)

  function Gap(n: int): seq<Part> { if n > 0 then [Omitted(n)] else [] }

  function LinesOf(lines: seq<string>): (parts: seq<Part>)
    ensures |parts| == |lines| && forall i | 0 <= i < |lines| :: parts[i] == Line(lines[i])
  {
    seq(|lines|, i requires 0 <= i < |lines| => Line(lines[i]))
  }

  /** The parts that show these ranges of the lines from `from` on. */
  function Parts(lines: seq<string>, ranges: seq<Range>, from: nat): seq<Part>
    requires from <= |lines| && Spread(ranges) && Within(ranges, from, |lines|)
    decreases |ranges|
  {
    if ranges == [] then Gap(|lines| - from)
    else
      var r := ranges[0];
      Gap(r.start - from) + LinesOf(lines[r.start..r.end + 1]) + Parts(lines, ranges[1..], r.end + 1)
  }

  function PartText(show: nat -> string, part: Part): string
  {
    match part
    case Line(text) => text
    case Omitted(n) => "[... " + show(n) + " lines omitted ...]"
  }

  function PartTexts(show: nat -> string, parts: seq<Part>): seq<string>
  {
    seq(|parts|, i requires 0 <= i < |parts| => PartText(show, parts[i]))
  }

  /** A line is shown as it is, and an omission with its number. */
  lemma PartsAreShown(show: nat -> string, parts: seq<Part>, i: nat)
    requires i < |parts|
    ensures |PartTexts(show, parts)| == |parts|
    ensures parts[i].Line? ==> PartTexts(show, parts)[i] == parts[i].text
    ensures parts[i].Omitted? ==> PartTexts(show, parts)[i] == "[... " + show(parts[i].count) + " lines omitted ...]"
  {
  }

  function Rendered(show: nat -> string, lines: seq<string>, ranges: seq<Range>): string
    requires Spread(ranges) && Within(ranges, 0, |lines|)
  {
    Join(PartTexts(show, Parts(lines, ranges, 0)), '\n')
  }

  lemma PartsFrom(lines: seq<string>, ranges: seq<Range>, next: nat, from: nat)
    requires next < |ranges| && Spread(ranges[next..]) && from <= |lines| && Within(ranges[next..], from, |lines|)
    ensures var r := ranges[next];
            && from <= r.start <= r.end < |lines|
            && Spread(ranges[next + 1..]) && Within(ranges[next + 1..], r.end + 1, |lines|)
            && Parts(lines, ranges[next..], from) ==
                 Gap(r.start - from) + LinesOf(lines[r.start..r.end + 1]) + Parts(lines, ranges[next + 1..], r.end + 1)
  {
    hide LinesOf, Gap;
    assert ranges[next..][0] == ranges[next] && ranges[next..][1..] == ranges[next + 1..];
  }

  method RenderRanges(show: nat -> string, lines: seq<string>, ranges: seq<Range>) returns (rendered: string)
    requires Spread(ranges) && Within(ranges, 0, |lines|)
    ensures rendered == Rendered(show, lines, ranges)
  {
    hide Parts, LinesOf, Gap, PartTexts, Join, Spread, Within;
    var parts: seq<string> := [];
    ghost var done: seq<Part> := [];
    var previousEnd, next := -1, 0;
    assert ranges[0..] == ranges;
    TextsOf(show, [], 0, []);
    while next < |ranges|
      invariant next <= |ranges| && -1 <= previousEnd < |lines| && parts == PartTexts(show, done)
      invariant Spread(ranges[next..]) && Within(ranges[next..], previousEnd + 1, |lines|)
      invariant done + Parts(lines, ranges[next..], previousEnd + 1) == Parts(lines, ranges, 0)
    {
      PartsFrom(lines, ranges, next, previousEnd + 1);
      var r := ranges[next];
      var omitted := r.start - previousEnd - 1;
      TextsOf(show, done, omitted, lines[r.start..r.end + 1]);
      if omitted > 0 { parts := parts + [PartText(show, Omitted(omitted))]; }
      parts := AppendLines(parts, lines, r);
      done := done + Gap(omitted) + LinesOf(lines[r.start..r.end + 1]);
      previousEnd := r.end;
      next := next + 1;
    }
    PartsNone(lines, ranges[next..], previousEnd + 1);
    var tailOmitted := |lines| - previousEnd - 1;
    TextsOf(show, done, tailOmitted, []);
    if tailOmitted > 0 { parts := parts + [PartText(show, Omitted(tailOmitted))]; }
    rendered := Join(parts, '\n');
  }

  method AppendLines(parts: seq<string>, lines: seq<string>, r: Range) returns (after: seq<string>)
    requires 0 <= r.start <= r.end < |lines|
    ensures after == parts + lines[r.start..r.end + 1]
  {
    after := parts;
    var index := r.start;
    while index <= r.end
      invariant r.start <= index <= r.end + 1 && after == parts + lines[r.start..index]
    {
      after := after + [lines[index]];
      index := index + 1;
    }
  }

  lemma TextsOf(show: nat -> string, done: seq<Part>, omitted: nat, lines: seq<string>)
    ensures PartTexts(show, []) == [] && LinesOf([]) == []
    ensures PartTexts(show, done + Gap(omitted) + LinesOf(lines)) ==
            PartTexts(show, done) + (if omitted > 0 then [PartText(show, Omitted(omitted))] else []) + lines
    ensures PartTexts(show, done + Gap(omitted)) ==
            if omitted > 0 then PartTexts(show, done) + [PartText(show, Omitted(omitted))] else PartTexts(show, done)
  {
  }

  lemma PartsNone(lines: seq<string>, ranges: seq<Range>, from: nat)
    requires ranges == [] && from <= |lines|
    ensures Parts(lines, ranges, from) == Gap(|lines| - from)
  {
  }

  /** What a reader makes of the parts: the lines shown, and a blank for each line counted as omitted. */
  function Reading(parts: seq<Part>): seq<Option<string>>
  {
    if parts == [] then []
    else (match parts[0] case Line(text) => [Some(text)] case Omitted(n) => seq(n, i => None)) + Reading(parts[1..])
  }

  lemma {:induction false} ReadingJoin(a: seq<Part>, b: seq<Part>)
    ensures Reading(a + b) == Reading(a) + Reading(b)
  {
    if a == [] {
      assert a + b == b;
    } else {
      assert (a + b)[1..] == a[1..] + b;
      ReadingJoin(a[1..], b);
    }
  }

  lemma {:induction false} ReadingLines(lines: seq<string>)
    ensures |Reading(LinesOf(lines))| == |lines| && forall i | 0 <= i < |lines| :: Reading(LinesOf(lines))[i] == Some(lines[i])
  {
    if lines != [] {
      ReadingLines(lines[1..]);
      assert LinesOf(lines)[1..] == LinesOf(lines[1..]);
    }
  }

  lemma ReadingGap(n: int)
    requires n >= 0
    ensures |Reading(Gap(n))| == n && forall i | 0 <= i < n :: Reading(Gap(n))[i] == None
  {
    if n > 0 { assert [Omitted(n)][1..] == []; }
  }

  lemma LaterCovers(ranges: seq<Range>, k: int)
    requires Spread(ranges) && ranges != []
    ensures k < ranges[0].start ==> !Covers(ranges, k)
    ensures ranges[0].start <= k <= ranges[0].end ==> Covers(ranges, k)
    ensures k > ranges[0].end ==> (Covers(ranges, k) <==> Covers(ranges[1..], k))
  {
    CoversRest(ranges, k);
  }

  lemma ReadingOne(lines: seq<string>, r: Range, from: nat, rest: seq<Part>, k: nat)
    requires from <= r.start <= r.end < |lines| && from <= k < |lines|
    requires |Reading(rest)| == |lines| - r.end - 1
    ensures var all := Reading(Gap(r.start - from) + LinesOf(lines[r.start..r.end + 1]) + rest);
            && |all| == |lines| - from
            && all[k - from] == if k < r.start then None else if k <= r.end then Some(lines[k]) else Reading(rest)[k - r.end - 1]
  {
    hide Reading, Gap, LinesOf;
    var gap, shown := Gap(r.start - from), LinesOf(lines[r.start..r.end + 1]);
    ReadingJoin(gap + shown, rest);
    ReadingJoin(gap, shown);
    ReadingGap(r.start - from);
    ReadingLines(lines[r.start..r.end + 1]);
  }

  /** No line is lost in a rendering: every line is either shown, in its place, or counted as omitted. */
  lemma {:induction false} PartsReadBack(lines: seq<string>, ranges: seq<Range>, from: nat)
    requires from <= |lines| && Spread(ranges) && Within(ranges, from, |lines|)
    ensures var reading := Reading(Parts(lines, ranges, from));
            && |reading| == |lines| - from
            && forall k | from <= k < |lines| :: reading[k - from] == if Covers(ranges, k) then Some(lines[k]) else None
    decreases |ranges|
  {
    hide Reading, Gap, LinesOf, Covers;
    if ranges == [] {
      ReadingGap(|lines| - from);
      forall k ensures !Covers([], k) { CoversNothing(k); }
    } else {
      var r := ranges[0];
      var rest := Parts(lines, ranges[1..], r.end + 1);
      PartsReadBack(lines, ranges[1..], r.end + 1);
      forall k | from <= k < |lines|
        ensures var reading := Reading(Parts(lines, ranges, from));
                |reading| == |lines| - from && reading[k - from] == if Covers(ranges, k) then Some(lines[k]) else None
      {
        ReadingOne(lines, r, from, rest, k);
        LaterCovers(ranges, k);
      }
      if from < |lines| { ReadingOne(lines, r, from, rest, from); }
    }
  }

  /** Lines shown and lines counted as omitted. */
  function Counted(parts: seq<Part>): nat
  {
    if parts == [] then 0 else (match parts[0] case Line(_) => 1 case Omitted(n) => n) + Counted(parts[1..])
  }

  lemma {:induction false} CountedIsRead(parts: seq<Part>)
    ensures Counted(parts) == |Reading(parts)|
  {
    if parts != [] { CountedIsRead(parts[1..]); }
  }

  /** They add up to the number of lines. */
  lemma LinesAreConserved(lines: seq<string>, ranges: seq<Range>)
    requires Spread(ranges) && Within(ranges, 0, |lines|)
    ensures Counted(Parts(lines, ranges, 0)) == |lines|
  {
    hide Counted, Parts;
    PartsReadBack(lines, ranges, 0);
    CountedIsRead(Parts(lines, ranges, 0));
  }

  // ---------------------------------------------------------------- lines of a text

  function SplitLines(text: string): (lines: seq<string>)
    ensures lines != []
  {
    if text != [] && text[|text| - 1] == '\n' then Split(text[..|text| - 1], '\n') else Split(text, '\n')
  }

  lemma {:induction false} SplitCount(text: string)
    ensures |Split(text, '\n')| == Breaks(text) + 1
  {
    if text != [] {
      assert text == [text[0]] + text[1..];
      BreaksJoin([text[0]], text[1..]);
      assert [text[0]][..0] == [];
      SplitCount(text[1..]);
    }
  }

  /** The lines of a text are as many as are reported, and give the text back. */
  lemma LinesOfText(text: string)
    ensures text != [] ==> |SplitLines(text)| == CountLogicalLines(text)
    ensures text == Join(SplitLines(text), '\n') || text == Join(SplitLines(text), '\n') + "\n"
  {
    hide Split, Join;
    if text != [] && text[|text| - 1] == '\n' {
      var front := text[..|text| - 1];
      SplitCount(front);
      SplitJoin(front, '\n');
      assert text == front + "\n";
    } else {
      SplitCount(text);
      SplitJoin(text, '\n');
    }
  }

  // ---------------------------------------------------------------- the byte budget

  const MARKER := "\n[... output truncated to byte budget ...]\n"

  function Positive(n: int): nat { if n > 0 then n else 0 }

  /** Fractions are taken exactly: a fifth rounded down and four fifths rounded up. */
  function EnsureByteLimit(text: string, budget: nat): string
  {
    if Bytes(text) <= budget then text
    else
      var remaining := Positive(budget - Bytes(MARKER));
      TakeHead(text, remaining / 5) + MARKER + TakeTail(text, (4 * remaining + 4) / 5)
  }

  lemma MarkerBytes()
    ensures Bytes(MARKER) == 43
  {
    OneByteBytes(MARKER);
  }

  /** The result is within the budget exactly when the text is, or the budget has room for the marker. */
  lemma LimitHoldsExactly(text: string, budget: nat)
    ensures Bytes(EnsureByteLimit(text, budget)) <= budget <==> Bytes(text) <= budget || budget >= 43
  {
    hide Bytes, TakeHead, TakeTail;
    MarkerBytes();
    if Bytes(text) > budget {
      var remaining := Positive(budget - 43);
      var head, tail := TakeHead(text, remaining / 5), TakeTail(text, (4 * remaining + 4) / 5);
      HeadFits(text, remaining / 5);
      TailFits(text, (4 * remaining + 4) / 5);
      BytesJoin(head + MARKER, tail);
      BytesJoin(head, MARKER);
    }
  }

  /** A text that exceeds two budgets splits into its head, its tail and what is between. */
  lemma HeadAndTail(text: string, headBudget: nat, tailBudget: nat)
    requires headBudget + tailBudget <= Bytes(text)
    ensures var head, tail := TakeHead(text, headBudget), TakeTail(text, tailBudget);
            exists middle :: text == head + middle + tail
  {
    hide Bytes, TakeHead, TakeTail;
    var head, tail := TakeHead(text, headBudget), TakeTail(text, tailBudget);
    HeadFits(text, headBudget);
    TailFits(text, tailBudget);
    var i, j := |head|, |text| - |tail|;
    EndsWeigh(text, i, j);
    var middle := text[i..j];
    assert text == head + middle + tail;
  }

  const OMISSION := "\n\n[... bytes omitted ...]\n\n"

  function StructuredPreview(show: nat -> string, text: string, name: string, budget: nat): string
  {
    var header := "[" + name + "]\n\n";
    var available := Positive(budget - Bytes(header + OMISSION));
    var head, tail := TakeHead(text, available / 4), TakeTail(text, (3 * available + 3) / 4);
    var omitted := Positive(Bytes(text) - Bytes(head) - Bytes(tail));
    EnsureByteLimit(header + head + "\n\n[... " + show(omitted) + " bytes omitted ...]\n\n" + tail, budget)
  }

  /** The number of omitted bytes is exact for every text over the budget, the only ones it is used for. */
  lemma OmittedBytesAreExact(text: string, name: string, budget: nat)
    requires Bytes(text) > budget
    ensures var available := Positive(budget - Bytes("[" + name + "]\n\n" + OMISSION));
            var head, tail := TakeHead(text, available / 4), TakeTail(text, (3 * available + 3) / 4);
            exists middle :: text == head + middle + tail && Bytes(middle) == Bytes(text) - Bytes(head) - Bytes(tail)
  {
    hide Bytes, TakeHead, TakeTail;
    var available := Positive(budget - Bytes("[" + name + "]\n\n" + OMISSION));
    HeadAndTail(text, available / 4, (3 * available + 3) / 4);
    var head, tail := TakeHead(text, available / 4), TakeTail(text, (3 * available + 3) / 4);
    var middle :| text == head + middle + tail;
    BytesJoin(head + middle, tail);
    BytesJoin(head, middle);
  }

  function DropLastBreaks(text: string): string
  {
    if text != [] && text[|text| - 1] == '\n' then DropLastBreaks(text[..|text| - 1]) else text
  }

  function DropFirstBreaks(text: string): string
  {
    if text != [] && text[0] == '\n' then DropFirstBreaks(text[1..]) else text
  }

  function Max(a: int, b: int): int { if a < b then b else a }
  function Min(a: int, b: int): int { if a < b then a else b }

  /** Room for the marker: its 25 bytes and 24 for the number in it. */
  const MARKER_BUDGET := 25 + 24

  function Portion(room: int, percent: nat): int { room * percent / 100 }

  function HeadBudget(budget: nat, percent: nat): nat
  {
    Positive(Max(Min(32, budget / 2), Portion(budget - MARKER_BUDGET, percent)))
  }

  function TailBudget(budget: nat, percent: nat): nat
  {
    Positive(budget - MARKER_BUDGET - HeadBudget(budget, percent))
  }

  /** The ratio of the head is given in percent. */
  function HeadTailPreview(show: nat -> string, text: string, budget: nat, percent: nat): string
  {
    var head := DropLastBreaks(TakeHead(text, HeadBudget(budget, percent)));
    var tail := DropFirstBreaks(TakeTail(text, TailBudget(budget, percent)));
    var omitted := Positive(CountLogicalLines(text) - CountLogicalLines(head) - CountLogicalLines(tail));
    EnsureByteLimit(head + "\n[... " + show(omitted) + " lines omitted ...]\n" + tail, budget)
  }

  lemma BudgetsFit(budget: nat, percent: nat)
    requires percent <= 100
    ensures HeadBudget(budget, percent) + TailBudget(budget, percent) <= budget
  {
    hide Portion;
    if budget >= MARKER_BUDGET { PortionFits(budget - MARKER_BUDGET, percent); } else { NoPortion(MARKER_BUDGET - budget, percent); }
  }

  lemma PortionFits(room: nat, percent: nat)
    requires percent <= 100
    ensures Portion(room, percent) <= room
  {
    assert room * percent <= room * 100;
  }

  lemma NoPortion(lack: int, percent: nat)
    requires lack >= 0
    ensures Portion(-lack, percent) <= 0
  {
    assert lack * percent >= 0 && -lack * percent == -(lack * percent);
  }

  /** The two ends shown of a text over the budget never overlap. */
  lemma EndsAreApart(text: string, budget: nat, percent: nat)
    requires Bytes(text) > budget && percent <= 100
    ensures var head, tail := TakeHead(text, HeadBudget(budget, percent)), TakeTail(text, TailBudget(budget, percent));
            exists middle :: text == head + middle + tail
  {
    hide Bytes, TakeHead, TakeTail, HeadBudget, TailBudget;
    BudgetsFit(budget, percent);
    HeadAndTail(text, HeadBudget(budget, percent), TailBudget(budget, percent));
  }
}
