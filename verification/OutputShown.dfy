/** What a preview shows, said without reference to how it is made: src/bash-tool/output-view.ts, lines
  * 129-138, 160-169 and 299-304. The functions of `OutputView` make exactly these. */
module OutputShown {
  import opened OutputText
  import opened OutputView

  /** The longest beginning of a text within a limit. */
  ghost predicate LongestHead(text: string, limit: nat, head: string)
  {
    head <= text && Bytes(head) <= limit && (head != text ==> Bytes(text[..|head| + 1]) > limit)
  }

  /** The longest end of a text within a limit. */
  ghost predicate LongestTail(text: string, limit: nat, tail: string)
  {
    && |tail| <= |text| && tail == text[|text| - |tail|..] && Bytes(tail) <= limit
    && (tail != text ==> Bytes(text[|text| - |tail| - 1..]) > limit)
  }

  lemma LongestHeadIs(text: string, limit: nat, head: string)
    ensures LongestHead(text, limit, head) <==> head == TakeHead(text, limit)
  {
    hide Bytes, TakeHead;
    HeadFits(text, limit);
    if LongestHead(text, limit, head) {
      assert head == text[..|head|] && (|head| < |text| ==> head != text);
      HeadIs(text, limit, |head|);
    }
    assert text[..|text|] == text;
  }

  lemma LongestTailIs(text: string, limit: nat, tail: string)
    ensures LongestTail(text, limit, tail) <==> tail == TakeTail(text, limit)
  {
    hide Bytes, TakeTail;
    TailFits(text, limit);
    if LongestTail(text, limit, tail) {
      assert |tail| < |text| ==> tail != text;
      TailIs(text, limit, |text| - |tail|);
    }
    assert text[0..] == text;
  }

  /** A text without the newlines at its end. */
  ghost predicate WithoutLastBreaks(text: string, rest: string)
  {
    rest <= text && (forall i | |rest| <= i < |text| :: text[i] == '\n') && (rest != [] ==> rest[|rest| - 1] != '\n')
  }

  /** A text without the newlines at its start. */
  ghost predicate WithoutFirstBreaks(text: string, rest: string)
  {
    && |rest| <= |text| && rest == text[|text| - |rest|..]
    && (forall i | 0 <= i < |text| - |rest| :: text[i] == '\n') && (rest != [] ==> rest[0] != '\n')
  }

  lemma {:induction false} LastBreaksDropped(text: string, rest: string)
    ensures WithoutLastBreaks(text, rest) <==> rest == DropLastBreaks(text)
  {
    if text != [] && text[|text| - 1] == '\n' {
      var front := text[..|text| - 1];
      LastBreaksDropped(front, rest);
      if WithoutLastBreaks(text, rest) {
        assert |rest| < |text|;
        assert rest <= front;
      }
    } else if WithoutLastBreaks(text, rest) {
      assert |rest| == |text|;
      assert rest == text;
    }
  }

  lemma {:induction false} FirstBreaksDropped(text: string, rest: string)
    ensures WithoutFirstBreaks(text, rest) <==> rest == DropFirstBreaks(text)
  {
    if text != [] && text[0] == '\n' {
      FirstBreaksDropped(text[1..], rest);
      if |rest| < |text| {
        assert text[1..][|text| - 1 - |rest|..] == text[|text| - |rest|..];
        assert forall i | 0 < i < |text| :: text[1..][i - 1] == text[i];
      }
    } else if |rest| == |text| {
      assert text[0..] == text;
    }
  }

  /** A text within the budget is shown as it is; of another, a fifth of what the marker leaves is the
    * start, and four fifths are the end. */
  ghost predicate LimitedTo(text: string, budget: nat, shown: string)
  {
    if Bytes(text) <= budget then shown == text
    else
      exists head, tail ::
        LongestHead(text, (if budget > 43 then budget - 43 else 0) / 5, head)
        && LongestTail(text, (4 * (if budget > 43 then budget - 43 else 0) + 4) / 5, tail)
        && shown == head + "\n[... output truncated to byte budget ...]\n" + tail
  }

  lemma LimitedToIs(text: string, budget: nat, shown: string)
    ensures LimitedTo(text, budget, shown) <==> shown == EnsureByteLimit(text, budget)
  {
    hide Bytes, TakeHead, TakeTail, LongestHead, LongestTail;
    MarkerBytes();
    if Bytes(text) > budget {
      var rest := Positive(budget - 43);
      var first, last := rest / 5, (4 * rest + 4) / 5;
      LongestHeadIs(text, first, TakeHead(text, first));
      LongestTailIs(text, last, TakeTail(text, last));
      if LimitedTo(text, budget, shown) {
        var head, tail :| LongestHead(text, first, head) && LongestTail(text, last, tail) && shown == head + MARKER + tail;
        LongestHeadIs(text, first, head);
        LongestTailIs(text, last, tail);
      }
    }
  }

  /** The larger of two bounds. */
  ghost predicate Larger(a: int, b: int, c: int) { c >= a && c >= b && (c == a || c == b) }

  /** Room for the start of a text: a share of what the marker and its number leave, and at least 32 bytes
    * or half the budget. The end gets the rest. */
  ghost predicate Shares(budget: nat, percent: nat, first: nat, last: nat)
  {
    && Larger(if budget / 2 < 32 then budget / 2 else 32, (budget - 49) * percent / 100, first)
    && Larger(0, budget - 49 - first, last)
  }

  lemma SharesAre(budget: nat, percent: nat, first: nat, last: nat)
    ensures Shares(budget, percent, first, last) <==> first == HeadBudget(budget, percent) && last == TailBudget(budget, percent)
  {
  }

  /** The start of a text, how many lines are left out, and its end. */
  ghost predicate EndsShown(show: nat -> string, text: string, first: nat, last: nat, shown: string)
  {
    exists head, tail, start, end ::
      && LongestHead(text, first, head) && WithoutLastBreaks(head, start)
      && LongestTail(text, last, tail) && WithoutFirstBreaks(tail, end)
      && shown == start + "\n[... " + show(LeftOut(text, start, end)) + " lines omitted ...]\n" + end
  }

  function LeftOut(text: string, start: string, end: string): nat
  {
    Positive(CountLogicalLines(text) - CountLogicalLines(start) - CountLogicalLines(end))
  }

  lemma EndsShownIs(show: nat -> string, text: string, first: nat, last: nat, shown: string)
    ensures var start, end := DropLastBreaks(TakeHead(text, first)), DropFirstBreaks(TakeTail(text, last));
            EndsShown(show, text, first, last, shown) <==>
              shown == start + "\n[... " + show(LeftOut(text, start, end)) + " lines omitted ...]\n" + end
  {
    hide Bytes, TakeHead, TakeTail, LongestHead, LongestTail, WithoutLastBreaks, WithoutFirstBreaks, DropLastBreaks, DropFirstBreaks, LeftOut;
    var head, tail := TakeHead(text, first), TakeTail(text, last);
    LongestHeadIs(text, first, head);
    LongestTailIs(text, last, tail);
    LastBreaksDropped(head, DropLastBreaks(head));
    FirstBreaksDropped(tail, DropFirstBreaks(tail));
    if EndsShown(show, text, first, last, shown) {
      var a, b, start, end :|
        && LongestHead(text, first, a) && WithoutLastBreaks(a, start)
        && LongestTail(text, last, b) && WithoutFirstBreaks(b, end)
        && shown == start + "\n[... " + show(LeftOut(text, start, end)) + " lines omitted ...]\n" + end;
      LongestHeadIs(text, first, a);
      LongestTailIs(text, last, b);
      LastBreaksDropped(head, start);
      FirstBreaksDropped(tail, end);
    }
  }

  /** `headTailPreview`: the two ends of a text, within the budget. */
  ghost predicate HeadTailShown(show: nat -> string, text: string, budget: nat, percent: nat, shown: string)
  {
    exists first: nat, last: nat, whole ::
      Shares(budget, percent, first, last) && EndsShown(show, text, first, last, whole) && LimitedTo(whole, budget, shown)
  }

  lemma HeadTailShownIs(show: nat -> string, text: string, budget: nat, percent: nat, shown: string)
    ensures HeadTailShown(show, text, budget, percent, shown) <==> shown == HeadTailPreview(show, text, budget, percent)
  {
    hide Shares, EndsShown, LimitedTo, EnsureByteLimit, TakeHead, TakeTail, HeadBudget, TailBudget, DropLastBreaks, DropFirstBreaks, CountLogicalLines;
    var first, last := HeadBudget(budget, percent), TailBudget(budget, percent);
    var start, end := DropLastBreaks(TakeHead(text, first)), DropFirstBreaks(TakeTail(text, last));
    var all := start + "\n[... " + show(LeftOut(text, start, end)) + " lines omitted ...]\n" + end;
    assert HeadTailPreview(show, text, budget, percent) == EnsureByteLimit(all, budget);
    SharesAre(budget, percent, first, last);
    EndsShownIs(show, text, first, last, all);
    LimitedToIs(all, budget, shown);
    if HeadTailShown(show, text, budget, percent, shown) {
      var f: nat, l: nat, whole :| Shares(budget, percent, f, l) && EndsShown(show, text, f, l, whole) && LimitedTo(whole, budget, shown);
      SharesAre(budget, percent, f, l);
      EndsShownIs(show, text, first, last, whole);
    }
  }

  /** Nothing is cut twice: with a budget of at least 98 bytes and a number of at most 23, what is shown is the
    * start of the text, the marker and the end. */
  lemma EndsShownWhole(show: nat -> string, text: string, budget: nat, percent: nat, shown: string)
    requires HeadTailShown(show, text, budget, percent, shown) && percent <= 100 && budget >= 98 && forall n :: Bytes(show(n)) <= 23
    ensures exists first: nat, last: nat :: Shares(budget, percent, first, last) && EndsShown(show, text, first, last, shown)
    ensures exists start, end, n ::
              && start <= text && |end| <= |text| && end == text[|text| - |end|..]
              && shown == start + "\n[... " + show(n) + " lines omitted ...]\n" + end
  {
    hide Bytes, LongestHead, LongestTail, WithoutLastBreaks, WithoutFirstBreaks, LeftOut;
    var first: nat, last: nat, whole :| Shares(budget, percent, first, last) && EndsShown(show, text, first, last, whole) && LimitedTo(whole, budget, shown);
    var head, tail, start, end :|
      && LongestHead(text, first, head) && WithoutLastBreaks(head, start)
      && LongestTail(text, last, tail) && WithoutFirstBreaks(tail, end)
      && whole == start + "\n[... " + show(LeftOut(text, start, end)) + " lines omitted ...]\n" + end;
    EndsAreEnds(text, first, last, head, tail, start, end);
    WholeFitsBudget(start, show(LeftOut(text, start, end)), end, first, last);
    ShareFits(budget, percent, first);
  }

  lemma ShareFits(budget: nat, percent: nat, first: nat)
    requires percent <= 100 && budget >= 98
    requires Larger(if budget / 2 < 32 then budget / 2 else 32, (budget - 49) * percent / 100, first)
    ensures first <= budget - 49
  {
    assert (budget - 49) * percent <= (budget - 49) * 100;
  }

  lemma EndsAreEnds(text: string, first: nat, last: nat, head: string, tail: string, start: string, end: string)
    requires LongestHead(text, first, head) && WithoutLastBreaks(head, start) && LongestTail(text, last, tail) && WithoutFirstBreaks(tail, end)
    ensures start <= text && |end| <= |text| && end == text[|text| - |end|..]
    ensures Bytes(start) <= first && Bytes(end) <= last
  {
    hide Bytes;
    assert head == start + head[|start|..];
    BytesJoin(start, head[|start|..]);
    assert tail == tail[..|tail| - |end|] + end;
    BytesJoin(tail[..|tail| - |end|], end);
    assert end == tail[|tail| - |end|..] == text[|text| - |tail|..][|tail| - |end|..];
  }

  lemma WholeFitsBudget(start: string, number: string, end: string, first: nat, last: nat)
    requires Bytes(start) <= first && Bytes(end) <= last && Bytes(number) <= 23
    ensures Bytes(start + "\n[... " + number + " lines omitted ...]\n" + end) <= first + last + 49
  {
    hide Bytes;
    BytesJoin(start + "\n[... " + number + " lines omitted ...]\n", end);
    BytesJoin(start + "\n[... " + number, " lines omitted ...]\n");
    BytesJoin(start + "\n[... ", number);
    BytesJoin(start, "\n[... ");
    OneByteBytes("\n[... ");
    assert |"\n[... "| == 6 && |" lines omitted ...]\n"| == 20;
    OneByteBytes(" lines omitted ...]\n");
  }

  /** A label, the start of the text, the exact number of bytes left out, and its end. */
  ghost predicate StructuredAs(show: nat -> string, text: string, name: string, room: nat, whole: string)
  {
    exists head, middle, tail ::
      && LongestHead(text, room / 4, head) && LongestTail(text, (3 * room + 3) / 4, tail) && text == head + middle + tail
      && whole == "[" + name + "]\n\n" + head + "\n\n[... " + show(Bytes(middle)) + " bytes omitted ...]\n\n" + tail
  }

  /** `structuredPreview`: that, in what the label and the marker leave of the budget. */
  ghost predicate StructuredShown(show: nat -> string, text: string, name: string, budget: nat, shown: string)
  {
    exists room: nat, whole ::
      Larger(0, budget - Bytes(name) - 31, room) && StructuredAs(show, text, name, room, whole) && LimitedTo(whole, budget, shown)
  }

  lemma LabelBytes(name: string)
    ensures Bytes("[" + name + "]\n\n" + OMISSION) == Bytes(name) + 31
  {
    hide Bytes;
    BytesJoin("[" + name + "]\n\n", OMISSION);
    BytesJoin("[" + name, "]\n\n");
    BytesJoin("[", name);
    OneByteBytes("[");
    OneByteBytes("]\n\n");
    OneByteBytes(OMISSION);
  }

  lemma StructuredShownIs(show: nat -> string, text: string, name: string, budget: nat)
    requires Bytes(text) > budget
    ensures StructuredShown(show, text, name, budget, StructuredPreview(show, text, name, budget))
  {
    hide Bytes, TakeHead, TakeTail, LimitedTo, EnsureByteLimit, StructuredPreview, StructuredAs;
    LabelBytes(name);
    OmittedBytesAreExact(text, name, budget);
    var room := Positive(budget - Bytes(name) - 31);
    var head, tail := TakeHead(text, room / 4), TakeTail(text, (3 * room + 3) / 4);
    var middle :| text == head + middle + tail && Bytes(middle) == Bytes(text) - Bytes(head) - Bytes(tail);
    var whole := "[" + name + "]\n\n" + head + "\n\n[... " + show(Bytes(middle)) + " bytes omitted ...]\n\n" + tail;
    StructuredWhole(show, text, name, budget);
    StructuredAsIs(show, text, name, room, middle);
    LimitedToIs(whole, budget, StructuredPreview(show, text, name, budget));
  }

  lemma StructuredAsIs(show: nat -> string, text: string, name: string, room: nat, middle: string)
    requires text == TakeHead(text, room / 4) + middle + TakeTail(text, (3 * room + 3) / 4)
    ensures StructuredAs(show, text, name, room,
              "[" + name + "]\n\n" + TakeHead(text, room / 4) + "\n\n[... " + show(Bytes(middle)) + " bytes omitted ...]\n\n" + TakeTail(text, (3 * room + 3) / 4))
  {
    hide Bytes, TakeHead, TakeTail, LongestHead, LongestTail;
    LongestHeadIs(text, room / 4, TakeHead(text, room / 4));
    LongestTailIs(text, (3 * room + 3) / 4, TakeTail(text, (3 * room + 3) / 4));
  }

  lemma StructuredWhole(show: nat -> string, text: string, name: string, budget: nat)
    ensures var room := Positive(budget - Bytes("[" + name + "]\n\n" + OMISSION));
            var head, tail := TakeHead(text, room / 4), TakeTail(text, (3 * room + 3) / 4);
            StructuredPreview(show, text, name, budget) ==
              EnsureByteLimit("[" + name + "]\n\n" + head + "\n\n[... " + show(Positive(Bytes(text) - Bytes(head) - Bytes(tail))) + " bytes omitted ...]\n\n" + tail, budget)
  {
    hide Bytes, TakeHead, TakeTail, EnsureByteLimit;
  }
}
