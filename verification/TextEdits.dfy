/** Incremental document edits: src/lsp/documents.ts, lines 160-215.
  *
  * A text is a sequence of UTF-16 code units, as JavaScript and LSP positions count it.
  * The first half states what an LSP server does with a position and a range, from the
  * "Text Documents" and "Position" sections of LSP 3.17: a line ends at "\n", "\r\n" or
  * "\r". The second half is the client's arithmetic, proved to say exactly what it means
  * to such a server. */
module TextEdits {
  import opened Utf16
  import opened Wrappers

  datatype Position = Position(line: int, character: int)
  datatype Change = Change(start: Position, end: Position, text: Text)

  // ---------------------------------------------------------------- the server's reading

  /** A line terminator of `text` ends exactly at offset `o`. */
  predicate EndsLine(text: Text, o: nat)
    requires o <= |text|
  {
    o > 0 && (text[o - 1] == LF || (text[o - 1] == CR && !(o < |text| && text[o] == LF)))
  }

  /** Number of lines that have ended by offset `o`. */
  function LineNumber(text: Text, o: nat): nat
    requires o <= |text|
  {
    if o == 0 then 0 else LineNumber(text, o - 1) + (if EndsLine(text, o) then 1 else 0)
  }

  /** First offset at or after `o` at which `line` lines have ended. */
  function FindLine(text: Text, line: int, o: nat): (start: Option<nat>)
    requires o <= |text|
    ensures start.Some? ==> o <= start.value <= |text| && LineNumber(text, start.value) == line
    decreases |text| - o
  {
    if LineNumber(text, o) == line then Some(o)
    else if o == |text| then None
    else FindLine(text, line, o + 1)
  }

  /** Where the content of the line through `o` stops: at its terminator or at the end of the text. */
  function ContentEnd(text: Text, o: nat): (e: nat)
    requires o <= |text|
    ensures o <= e <= |text|
    decreases |text| - o
  {
    if o == |text| || text[o] == CR || text[o] == LF then o else ContentEnd(text, o + 1)
  }

  /** The server's resolution of a position. A character past the end of its line means the
    * end of the line; a negative coordinate or a line that does not exist is malformed. */
  function Resolve(text: Text, p: Position): Option<nat>
  {
    if p.line < 0 || p.character < 0 then None
    else match FindLine(text, p.line, 0)
      case None => None
      case Some(start) =>
        var end := ContentEnd(text, start);
        Some(if start + p.character <= end then start + p.character else end)
  }

  /** The server's effect of one ranged content change. */
  function ApplyChange(text: Text, change: Change): Option<Text>
  {
    match (Resolve(text, change.start), Resolve(text, change.end))
    case (Some(from), Some(to)) =>
      if from <= to <= |text| then Some(text[..from] + change.text + text[to..]) else None
    case _ => None
  }

  // ---------------------------------------------------------------- the client's arithmetic

  /** `offset` lies between the two halves of a CRLF. */
  predicate SplitsCrLf(text: Text, offset: nat)
  {
    0 < offset < |text| && text[offset - 1] == CR && text[offset] == LF
  }

  function LineStartBefore(text: Text, o: nat): (start: nat)
    requires o <= |text|
    ensures start <= o
  {
    if o == 0 || EndsLine(text, o) then o else LineStartBefore(text, o - 1)
  }

  /** What `PositionAt` returns. Inside a CRLF the scan steps over the whole terminator, so
    * the character comes out as -1 on the following line. */
  function PositionOf(text: Text, offset: nat): Position
    requires offset <= |text|
  {
    if SplitsCrLf(text, offset) then Position(LineNumber(text, offset + 1), -1)
    else Position(LineNumber(text, offset), offset - LineStartBefore(text, offset))
  }

  method PositionAt(text: Text, offset: nat) returns (p: Position)
    requires offset <= |text|
    ensures p == PositionOf(text, offset)
  {
    var line, lineStart, index := 0, 0, 0;
    while index < offset
      invariant index <= |text| && !SplitsCrLf(text, index)
      invariant index <= offset || (SplitsCrLf(text, offset) && index == offset + 1 && lineStart == index)
      invariant line == LineNumber(text, index)
      invariant lineStart == LineStartBefore(text, index)
    {
      var code := text[index];
      if code == CR {
        index := index + if index + 1 < |text| && text[index + 1] == LF then 2 else 1;
        line := line + 1;
        lineStart := index;
      } else {
        index := index + 1;
        if code == LF {
          line := line + 1;
          lineStart := index;
        }
      }
    }
    p := Position(line, offset - lineStart);
  }

  /** A cut after `prefix` units of two texts that agree up to there, inside no CRLF of either. */
  ghost predicate CutsPrefix(previous: Text, next: Text, prefix: nat)
  {
    && prefix <= |previous| && prefix <= |next|
    && (forall i | 0 <= i < prefix :: previous[i] == next[i])
    && !SplitsCrLf(previous, prefix) && !SplitsCrLf(next, prefix)
  }

  /** The same for the last `suffix` units, leaving at least `prefix` units in front. */
  ghost predicate CutsSuffix(previous: Text, next: Text, prefix: nat, suffix: nat)
  {
    && prefix + suffix <= |previous| && prefix + suffix <= |next|
    && (forall i | |previous| - suffix <= i < |previous| :: previous[i] == next[i + |next| - |previous|])
    && !SplitsCrLf(previous, |previous| - suffix) && !SplitsCrLf(next, |next| - suffix)
  }

  /** Keep `prefix` units at the front and `suffix` at the back of both texts: the edits the
    * client may send. */
  ghost predicate ValidEdit(previous: Text, next: Text, prefix: nat, suffix: nat)
  {
    CutsPrefix(previous, next, prefix) && CutsSuffix(previous, next, prefix, suffix)
  }

  /** No valid edit keeps a longer prefix, or as long a prefix and a longer suffix. */
  ghost predicate KeepsMost(previous: Text, next: Text, prefix: nat, suffix: nat)
  {
    forall p: nat, s: nat | ValidEdit(previous, next, p, s) :: p < prefix || (p == prefix && s <= suffix)
  }

  method KeptPrefix(previous: Text, next: Text) returns (prefix: nat)
    ensures CutsPrefix(previous, next, prefix)
    ensures forall p: nat | CutsPrefix(previous, next, p) :: p <= prefix
  {
    prefix := 0;
    var sharedLength := if |previous| < |next| then |previous| else |next|;
    while prefix < sharedLength && previous[prefix] == next[prefix]
      invariant prefix <= sharedLength
      invariant forall i | 0 <= i < prefix :: previous[i] == next[i]
    {
      prefix := prefix + 1;
    }
    if SplitsCrLf(previous, prefix) || SplitsCrLf(next, prefix) { prefix := prefix - 1; }
  }

  method KeptSuffix(previous: Text, next: Text, prefix: nat) returns (suffix: nat)
    requires CutsPrefix(previous, next, prefix)
    ensures CutsSuffix(previous, next, prefix, suffix)
    ensures forall s: nat | CutsSuffix(previous, next, prefix, s) :: s <= suffix
  {
    suffix := 0;
    while suffix < |previous| - prefix && suffix < |next| - prefix && previous[|previous| - suffix - 1] == next[|next| - suffix - 1]
      invariant prefix + suffix <= |previous| && prefix + suffix <= |next|
      invariant forall i | |previous| - suffix <= i < |previous| :: previous[i] == next[i + |next| - |previous|]
    {
      suffix := suffix + 1;
    }
    var last := |previous| - suffix - 1;
    assert suffix == |previous| - prefix || suffix == |next| - prefix || previous[last] != next[last + |next| - |previous|];
    while suffix > 0 && (SplitsCrLf(previous, |previous| - suffix) || SplitsCrLf(next, |next| - suffix))
      invariant prefix + suffix <= |previous| && prefix + suffix <= |next|
      invariant forall i | |previous| - suffix <= i < |previous| :: previous[i] == next[i + |next| - |previous|]
      invariant forall s: nat | CutsSuffix(previous, next, prefix, s) :: s <= suffix
    {
      suffix := suffix - 1;
    }
  }

  /** The change is the smallest one a server can be sent, and the server reads it as `next`. */
  method IncrementalContentChange(previous: Text, next: Text) returns (change: Change, ghost prefix: nat, ghost suffix: nat)
    ensures ValidEdit(previous, next, prefix, suffix) && KeepsMost(previous, next, prefix, suffix)
    ensures change.start == PositionOf(previous, prefix)
    ensures change.end == PositionOf(previous, |previous| - suffix)
    ensures change.text == next[prefix..|next| - suffix]
    ensures ApplyChange(previous, change) == Some(next)
  {
    var p := KeptPrefix(previous, next);
    var s := KeptSuffix(previous, next, p);
    var start := PositionAt(previous, p);
    var end := PositionAt(previous, |previous| - s);
    change := Change(start, end, next[p..|next| - s]);
    prefix, suffix := p, s;
    EditReachesNext(previous, next, p, s);
  }

  // ---------------------------------------------------------------- why the server agrees

  lemma {:induction false} LineNumberMonotone(text: Text, a: nat, b: nat)
    requires a <= b <= |text|
    ensures LineNumber(text, a) <= LineNumber(text, b)
    decreases b
  {
    if a < b { LineNumberMonotone(text, a, b - 1); }
  }

  lemma {:induction false} LineStartFacts(text: Text, o: nat)
    requires o <= |text|
    ensures var start := LineStartBefore(text, o);
            && LineNumber(text, start) == LineNumber(text, o)
            && (start == 0 || EndsLine(text, start))
            && forall i | start < i <= o :: !EndsLine(text, i)
  {
    if o > 0 && !EndsLine(text, o) { LineStartFacts(text, o - 1); }
  }

  lemma {:induction false} FindLineFinds(text: Text, line: nat, from: nat, o: nat)
    requires from <= o <= |text| && LineNumber(text, o) == line
    requires forall i | from <= i < o :: LineNumber(text, i) != line
    ensures FindLine(text, line, from) == Some(o)
    decreases o - from
  {
    if from < o { FindLineFinds(text, line, from + 1, o); }
  }

  lemma {:induction false} ContentReaches(text: Text, start: nat, o: nat)
    requires start <= o <= |text|
    requires forall i | start <= i < o :: text[i] != CR && text[i] != LF
    ensures o <= ContentEnd(text, start)
    decreases o - start
  {
    if start < o { ContentReaches(text, start + 1, o); }
  }

  /** The server resolves the client's position of an offset to that offset exactly when the
    * offset does not cut a CRLF; on the cut ones the client's position is malformed. */
  lemma PositionRoundTrip(text: Text, o: nat)
    requires o <= |text|
    ensures Resolve(text, PositionOf(text, o)) == Some(o) <==> !SplitsCrLf(text, o)
    ensures SplitsCrLf(text, o) ==> Resolve(text, PositionOf(text, o)) == None
  {
    if !SplitsCrLf(text, o) {
      var start := LineStartBefore(text, o);
      LineStartFacts(text, o);
      forall i | 0 <= i < start ensures LineNumber(text, i) != LineNumber(text, o) {
        LineNumberMonotone(text, i, start - 1);
      }
      FindLineFinds(text, LineNumber(text, o), 0, start);
      forall i | start <= i < o ensures text[i] != CR && text[i] != LF {
        assert !EndsLine(text, i + 1);
        assert i + 1 == o || !EndsLine(text, i + 2);
      }
      ContentReaches(text, start, o);
    }
  }

  /** The range a valid edit is sent with makes the server splice `previous` into `next`. */
  lemma EditReachesNext(previous: Text, next: Text, prefix: nat, suffix: nat)
    requires ValidEdit(previous, next, prefix, suffix)
    ensures ApplyChange(previous, Change(PositionOf(previous, prefix), PositionOf(previous, |previous| - suffix), next[prefix..|next| - suffix])) == Some(next)
  {
    PositionRoundTrip(previous, prefix);
    PositionRoundTrip(previous, |previous| - suffix);
    hide Resolve, PositionOf;
    SplicedText(previous, next, prefix, suffix);
  }

  lemma SplicedText(previous: Text, next: Text, prefix: nat, suffix: nat)
    requires ValidEdit(previous, next, prefix, suffix)
    ensures previous[..prefix] + next[prefix..|next| - suffix] + previous[|previous| - suffix..] == next
  {
    hide SplitsCrLf;
    assert previous[..prefix] == next[..prefix];
    assert previous[|previous| - suffix..] == next[|next| - suffix..];
  }

  /** Both ends the client sends are well formed and in document order. */
  lemma ValidEditIsOrdered(previous: Text, next: Text, prefix: nat, suffix: nat)
    requires ValidEdit(previous, next, prefix, suffix)
    ensures var start, end := PositionOf(previous, prefix), PositionOf(previous, |previous| - suffix);
            && 0 <= start.line && 0 <= start.character && 0 <= end.line && 0 <= end.character
            && (start.line < end.line || (start.line == end.line && start.character <= end.character))
  {
    var from, to := prefix, |previous| - suffix;
    LineNumberMonotone(previous, from, to);
    LineStartFacts(previous, from);
    LineStartFacts(previous, to);
    if LineStartBefore(previous, to) > from {
      LineNumberMonotone(previous, from, LineStartBefore(previous, to) - 1);
    } else {
      SameLineStart(previous, from, to);
    }
  }

  lemma {:induction false} SameLineStart(text: Text, a: nat, b: nat)
    requires a <= b <= |text| && LineStartBefore(text, b) <= a
    ensures LineStartBefore(text, a) == LineStartBefore(text, b)
    decreases b
  {
    if a < b { SameLineStart(text, a, b - 1); }
  }
}
