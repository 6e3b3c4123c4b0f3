/** The language of path lists, as a grammar, and that the parser accepts exactly it:
  * src/tool-repair/repair.ts, lines 377-437. */
module PathListGrammar {
  import opened PathList
  import opened Wrappers

  // ---------------------------------------------------------------- the grammar

  /** Inside quotes: a character, or a backslash and any character. */
  datatype Inner = Raw(c: char) | Escaped(c: char)

  /** A path is written in pieces: plain characters, and quotes around anything. */
  datatype Piece = One(c: char) | Between(mark: char, body: seq<Inner>)

  /** A path and the gap in front of it. */
  datatype Entry = Entry(gap: string, word: seq<Piece>)

  predicate LegalInner(i: Inner, mark: char) { i.Raw? ==> i.c != mark && i.c != '\\' }

  predicate LegalPiece(p: Piece)
  {
    match p
    case One(c) => Plain(c)
    case Between(mark, body) => Quote(mark) && forall i | i in body :: LegalInner(i, mark)
  }

  /** White space with at most one comma in it. */
  predicate LegalGap(gap: string)
  {
    && (forall i | 0 <= i < |gap| :: Space(gap[i]) || gap[i] == ',')
    && (forall i, j | 0 <= i < j < |gap| :: gap[i] != ',' || gap[j] != ',')
  }

  predicate LegalWord(word: seq<Piece>) { forall p | p in word :: LegalPiece(p) }

  /** Gaps between the paths, and no path that stands for nothing. */
  predicate LegalEntries(entries: seq<Entry>)
  {
    forall i | 0 <= i < |entries| ::
      && LegalGap(entries[i].gap) && (i > 0 ==> entries[i].gap != [])
      && LegalWord(entries[i].word) && WordMeaning(entries[i].word) != []
  }

  function InnerText(i: Inner): string
  {
    match i
    case Raw(c) => [c]
    case Escaped(c) => ['\\', c]
  }

  /** A backslash stands for itself unless it escapes the quote or another backslash. */
  function InnerMeaning(i: Inner, mark: char): string
  {
    match i
    case Raw(c) => [c]
    case Escaped(c) => if c == mark || c == '\\' then [c] else ['\\', c]
  }

  function BodyText(body: seq<Inner>): string
  {
    if body == [] then [] else BodyText(body[..|body| - 1]) + InnerText(body[|body| - 1])
  }

  function BodyMeaning(body: seq<Inner>, mark: char): string
  {
    if body == [] then [] else BodyMeaning(body[..|body| - 1], mark) + InnerMeaning(body[|body| - 1], mark)
  }

  function PieceText(p: Piece): string
  {
    match p
    case One(c) => [c]
    case Between(mark, body) => [mark] + BodyText(body) + [mark]
  }

  function PieceMeaning(p: Piece): string
  {
    match p
    case One(c) => [c]
    case Between(mark, body) => BodyMeaning(body, mark)
  }

  function WordText(word: seq<Piece>): string
  {
    if word == [] then [] else WordText(word[..|word| - 1]) + PieceText(word[|word| - 1])
  }

  function WordMeaning(word: seq<Piece>): string
  {
    if word == [] then [] else WordMeaning(word[..|word| - 1]) + PieceMeaning(word[|word| - 1])
  }

  function EntriesText(entries: seq<Entry>): string
  {
    if entries == [] then []
    else EntriesText(entries[..|entries| - 1]) + (entries[|entries| - 1].gap + WordText(entries[|entries| - 1].word))
  }

  function Paths(entries: seq<Entry>): (paths: seq<string>)
    ensures |paths| == |entries|
  {
    seq(|entries|, i requires 0 <= i < |entries| => WordMeaning(entries[i].word))
  }

  /** The text is such a list, and these are its paths. */
  ghost predicate Reads(value: string, limit: nat, paths: seq<string>, entries: seq<Entry>, end: string)
  {
    && value == EntriesText(entries) + end && LegalEntries(entries) && Blank(end)
    && 1 <= |entries| <= limit && paths == Paths(entries)
  }

  // ---------------------------------------------------------------- what is read so far

  datatype Open = Shut | In(mark: char, body: seq<Inner>, escaping: bool)

  function OpenText(open: Open): string
  {
    match open
    case Shut => []
    case In(mark, body, escaping) => [mark] + BodyText(body) + if escaping then ['\\'] else []
  }

  function OpenMeaning(open: Open): string
  {
    match open
    case Shut => []
    case In(mark, body, _) => BodyMeaning(body, mark)
  }

  /** Whole entries, a gap, the pieces of a word, and perhaps a quote that is still open. */
  datatype Partial = Partial(entries: seq<Entry>, gap: string, word: seq<Piece>, open: Open)

  predicate LegalPartial(p: Partial)
  {
    && LegalEntries(p.entries) && LegalGap(p.gap) && (p.entries != [] ==> p.gap != []) && LegalWord(p.word)
    && (p.open.In? ==> Quote(p.open.mark) && forall i | i in p.open.body :: LegalInner(i, p.open.mark))
  }

  function PartialText(p: Partial): string
  {
    EntriesText(p.entries) + p.gap + WordText(p.word) + OpenText(p.open)
  }

  function PartialState(p: Partial): State
  {
    State(Paths(p.entries), WordMeaning(p.word) + OpenMeaning(p.open), p.word != [] || p.open.In?,
          if p.open.In? then Some(p.open.mark) else None, p.open.In? && p.open.escaping,
          p.word == [] && p.open.Shut? && ',' in p.gap)
  }

  lemma BodyGrows(body: seq<Inner>, i: Inner, mark: char)
    ensures BodyText(body + [i]) == BodyText(body) + InnerText(i)
    ensures BodyMeaning(body + [i], mark) == BodyMeaning(body, mark) + InnerMeaning(i, mark)
  {
    assert (body + [i])[..|body|] == body;
  }

  lemma WordGrows(word: seq<Piece>, p: Piece)
    ensures WordText(word + [p]) == WordText(word) + PieceText(p)
    ensures WordMeaning(word + [p]) == WordMeaning(word) + PieceMeaning(p)
  {
    assert (word + [p])[..|word|] == word;
  }

  lemma EntriesGrow(entries: seq<Entry>, e: Entry)
    ensures EntriesText(entries + [e]) == EntriesText(entries) + e.gap + WordText(e.word)
    ensures Paths(entries + [e]) == Paths(entries) + [WordMeaning(e.word)]
    ensures LegalEntries(entries) && LegalGap(e.gap) && (entries != [] ==> e.gap != []) && LegalWord(e.word) && WordMeaning(e.word) != [] ==>
            LegalEntries(entries + [e])
  {
    assert (entries + [e])[..|entries|] == entries;
  }

  // ---------------------------------------------------------------- what is accepted can be read

  /** The next character is read into what is read so far. */
  lemma ReadOn(p: Partial, c: char, limit: nat) returns (next: Partial)
    requires LegalPartial(p) && Step(PartialState(p), c, limit).Some?
    ensures LegalPartial(next) && PartialText(next) == PartialText(p) + [c]
    ensures PartialState(next) == Step(PartialState(p), c, limit).value
  {
    hide BodyText, BodyMeaning, WordText, WordMeaning, EntriesText, LegalEntries, Space, LegalPiece, Paths;
    if p.open.In? {
      next := ReadInside(p, c, limit);
    } else if Quote(c) {
      next := p.(open := In(c, [], false));
      NoBody(c);
    } else if c == ',' || Space(c) {
      next := ReadGap(p, c, limit);
    } else {
      next := p.(word := p.word + [One(c)]);
      WordGrows(p.word, One(c));
      OnePlain(c);
    }
  }

  lemma OnePlain(c: char)
    requires !Quote(c) && c != ',' && !Space(c)
    ensures LegalPiece(One(c))
  {
  }

  lemma NoBody(mark: char)
    ensures BodyText([]) == [] && BodyMeaning([], mark) == []
  {
  }

  lemma ReadInside(p: Partial, c: char, limit: nat) returns (next: Partial)
    requires LegalPartial(p) && p.open.In?
    ensures LegalPartial(next) && PartialText(next) == PartialText(p) + [c]
    ensures PartialState(next) == StepQuoted(PartialState(p), c, p.open.mark)
  {
    hide BodyText, BodyMeaning, WordText, WordMeaning, EntriesText, LegalEntries, LegalGap, Paths, Quote;
    var mark, body := p.open.mark, p.open.body;
    var before := EntriesText(p.entries) + p.gap;
    if p.open.escaping {
      next := p.(open := In(mark, body + [Escaped(c)], false));
      BodyGrows(body, Escaped(c), mark);
    } else if c == '\\' {
      next := p.(open := In(mark, body, true));
    } else if c == mark {
      next := p.(word := p.word + [Between(mark, body)], open := Shut);
      WordGrows(p.word, Between(mark, body));
      assert [mark] + BodyText(body) + [] == [mark] + BodyText(body);
      assert WordMeaning(next.word) + [] == WordMeaning(next.word);
    } else {
      next := p.(open := In(mark, body + [Raw(c)], false));
      BodyGrows(body, Raw(c), mark);
    }
  }

  lemma ReadGap(p: Partial, c: char, limit: nat) returns (next: Partial)
    requires LegalPartial(p) && p.open.Shut? && (c == ',' || Space(c)) && !Quote(c) && Step(PartialState(p), c, limit).Some?
    ensures LegalPartial(next) && PartialText(next) == PartialText(p) + [c]
    ensures PartialState(next) == Step(PartialState(p), c, limit).value
  {
    hide BodyText, BodyMeaning, WordText, EntriesText, LegalEntries, Paths, LegalWord, Space;
    assert WordMeaning(p.word) + [] == WordMeaning(p.word);
    if p.word == [] {
      next := p.(gap := p.gap + [c]);
      NoWord();
    } else {
      var e := Entry(p.gap, p.word);
      next := Partial(p.entries + [e], [c], [], Shut);
      EntriesGrow(p.entries, e);
      NoWord();
    }
  }

  lemma NoWord()
    ensures WordText([]) == [] && WordMeaning([]) == [] && LegalWord([])
  {
  }

  lemma {:induction false} ReadAll(value: string, limit: nat) returns (p: Partial)
    requires Run(START, value, limit).Some?
    ensures LegalPartial(p) && PartialText(p) == value && PartialState(p) == Run(START, value, limit).value
  {
    hide LegalPartial, PartialText, PartialState, Step;
    if value == [] {
      p := Partial([], [], [], Shut);
      NothingRead();
    } else {
      var n := |value| - 1;
      var before := ReadAll(value[..n], limit);
      p := ReadOn(before, value[n], limit);
      assert value == value[..n] + [value[n]];
    }
  }

  lemma NothingRead()
    ensures var p := Partial([], [], [], Shut); LegalPartial(p) && PartialText(p) == [] && PartialState(p) == START
  {
  }

  lemma {:induction false} AcceptedIsRead(value: string, limit: nat) returns (entries: seq<Entry>, end: string)
    requires Parse(value, limit).Some?
    ensures Reads(value, limit, Parse(value, limit).value, entries, end)
  {
    hide Run, WordText, WordMeaning, EntriesText, LegalEntries, LegalWord, Space;
    var p := ReadAll(value, limit);
    AcceptedIsGood(value, limit);
    NoWord();
    assert WordMeaning(p.word) + [] == WordMeaning(p.word);
    if p.word == [] {
      entries, end := p.entries, p.gap;
    } else {
      entries, end := p.entries + [Entry(p.gap, p.word)], [];
      EntriesGrow(p.entries, Entry(p.gap, p.word));
      assert EntriesText(entries) + [] == value;
    }
  }

  // ---------------------------------------------------------------- what can be read is accepted

  lemma {:induction false} RunBody(s: State, body: seq<Inner>, limit: nat)
    requires s.quote.Some? && Quote(s.quote.value) && !s.escaped && s.started && forall i | i in body :: LegalInner(i, s.quote.value)
    ensures Run(s, BodyText(body), limit) == Some(s.(token := s.token + BodyMeaning(body, s.quote.value)))
  {
    hide Run;
    var mark := s.quote.value;
    if body == [] {
      RunNothing(s, limit);
      assert s.token + [] == s.token;
    } else {
      var n := |body| - 1;
      var before, i := s.(token := s.token + BodyMeaning(body[..n], mark)), body[n];
      assert forall k | k in body[..n] :: k in body;
      RunBody(s, body[..n], limit);
      RunJoin(s, BodyText(body[..n]), InnerText(i), limit);
      RunInner(before, i, limit);
      assert before.token + InnerMeaning(i, mark) == s.token + BodyMeaning(body, mark);
    }
  }

  lemma RunInner(s: State, i: Inner, limit: nat)
    requires s.quote.Some? && Quote(s.quote.value) && !s.escaped && s.started && LegalInner(i, s.quote.value)
    ensures Run(s, InnerText(i), limit) == Some(s.(token := s.token + InnerMeaning(i, s.quote.value)))
  {
    hide Run;
    match i
    case Raw(c) => RunOne(s, c, limit);
    case Escaped(c) =>
      assert ['\\', c] == ['\\'] + [c];
      RunJoin(s, ['\\'], [c], limit);
      RunOne(s, '\\', limit);
      RunOne(s.(escaped := true), c, limit);
  }

  /** In a word, or before its first piece. */
  function Amid(paths: seq<string>, token: string, started: bool, comma: bool): State { State(paths, token, started, None, false, comma) }

  lemma RunPiece(paths: seq<string>, token: string, started: bool, comma: bool, p: Piece, limit: nat)
    requires LegalPiece(p)
    ensures Run(Amid(paths, token, started, comma), PieceText(p), limit) == Some(Amid(paths, token + PieceMeaning(p), true, false))
  {
    hide Run, BodyText, BodyMeaning;
    var s := Amid(paths, token, started, comma);
    match p
    case One(c) => RunOne(s, c, limit);
    case Between(mark, body) =>
      var open := State(paths, token, true, Some(mark), false, false);
      RunJoin(s, [mark] + BodyText(body), [mark], limit);
      RunJoin(s, [mark], BodyText(body), limit);
      RunOne(s, mark, limit);
      RunBody(open, body, limit);
      RunOne(open.(token := token + BodyMeaning(body, mark)), mark, limit);
  }

  lemma {:induction false} RunWord(paths: seq<string>, comma: bool, word: seq<Piece>, limit: nat)
    requires LegalWord(word)
    ensures Run(Ready(paths, comma), WordText(word), limit) ==
            Some(if word == [] then Ready(paths, comma) else Ended(paths, WordMeaning(word)))
  {
    hide Run, LegalPiece, PieceText, PieceMeaning;
    if word == [] {
      RunNothing(Ready(paths, comma), limit);
    } else {
      var n := |word| - 1;
      assert forall p | p in word[..n] :: p in word;
      RunWord(paths, comma, word[..n], limit);
      RunJoin(Ready(paths, comma), WordText(word[..n]), PieceText(word[n]), limit);
      assert WordMeaning([]) == [];
      RunPiece(paths, WordMeaning(word[..n]), n > 0, n == 0 && comma, word[n], limit);
    }
  }

  /** The gap in front of the first path. */
  lemma {:induction false} RunFirstGap(gap: string, limit: nat)
    requires LegalGap(gap)
    ensures Run(START, gap, limit) == Some(Ready([], ',' in gap))
  {
    if gap != [] {
      var n := |gap| - 1;
      RunFirstGap(gap[..n], limit);
      assert gap == gap[..n] + [gap[n]];
    }
  }

  lemma {:induction false} RunEntries(entries: seq<Entry>, limit: nat)
    requires LegalEntries(entries) && 1 <= |entries| <= limit
    ensures Run(START, EntriesText(entries), limit) == Some(Ended(Paths(entries)[..|entries| - 1], WordMeaning(entries[|entries| - 1].word)))
  {
    hide Run, WordText, WordMeaning, LegalGap, LegalWord;
    var n := |entries| - 1;
    var before, last := entries[..n], entries[n];
    var paths := Paths(entries)[..n];
    NoWord();
    if n == 0 {
      RunFirstGap(last.gap, limit);
      assert EntriesText([]) == [] && [] + (last.gap + WordText(last.word)) == last.gap + WordText(last.word);
      RunJoin(START, last.gap, WordText(last.word), limit);
      RunWord([], ',' in last.gap, last.word, limit);
    } else {
      RunEntries(before, limit);
      assert Paths(before) == paths && Paths(before)[..n - 1] + [WordMeaning(entries[n - 1].word)] == paths;
      RunJoin(START, EntriesText(before), last.gap + WordText(last.word), limit);
      RunJoin(Ended(Paths(before)[..n - 1], WordMeaning(entries[n - 1].word)), last.gap, WordText(last.word), limit);
      GapSeparates(last.gap);
      RunSeparator(Paths(before)[..n - 1], WordMeaning(entries[n - 1].word), last.gap, limit);
      RunWord(paths, ',' in last.gap, last.word, limit);
    }
  }

  lemma GapSeparates(gap: string)
    requires LegalGap(gap) && gap != []
    ensures Separates(gap)
  {
  }

  lemma {:induction false} ReadIsAccepted(value: string, limit: nat, paths: seq<string>, entries: seq<Entry>, end: string)
    requires Reads(value, limit, paths, entries, end)
    ensures Parse(value, limit) == Some(paths)
  {
    hide Run, EntriesText, WordMeaning, Blank;
    var n := |entries| - 1;
    RunEntries(entries, limit);
    RunJoin(START, EntriesText(entries), end, limit);
    RunBlank(Paths(entries)[..n], WordMeaning(entries[n].word), end, limit);
    assert Paths(entries)[..n] + [WordMeaning(entries[n].word)] == paths;
  }

  /** The parser accepts exactly the texts of the grammar, and reads their paths. */
  lemma ParsesExactly(value: string, limit: nat, paths: seq<string>)
    ensures Parse(value, limit) == Some(paths) <==> exists entries, end :: Reads(value, limit, paths, entries, end)
  {
    hide Parse, Reads;
    if Parse(value, limit) == Some(paths) { var entries, end := AcceptedIsRead(value, limit); }
    if entries, end :| Reads(value, limit, paths, entries, end) { ReadIsAccepted(value, limit, paths, entries, end); }
  }
}
