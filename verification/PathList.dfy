/** A list of paths in one string: src/tool-repair/repair.ts, lines 377-437 and 449-451. */
module PathList {
  import opened Wrappers

  const DEFAULT_MAX_PATH_COUNT := 32

  /** `normalizeMaxPathCount`: None is a bound that is missing or not a whole number. */
  function Limit(maxPathCount: Option<int>): (limit: nat)
    ensures limit > 0
  {
    if maxPathCount.Some? && maxPathCount.value > 0 then maxPathCount.value else DEFAULT_MAX_PATH_COUNT
  }

  /** White space in ECMA-262. */
  predicate Space(c: char)
  {
    var u := c as int;
    0x09 <= u <= 0x0D || u == 0x20 || u == 0xA0 || u == 0x1680 || 0x2000 <= u <= 0x200A || u == 0x2028 || u == 0x2029
    || u == 0x202F || u == 0x205F || u == 0x3000 || u == 0xFEFF
  }

  predicate Quote(c: char) { c == '"' || c == '\'' }

  // ---------------------------------------------------------------- the parser

  datatype State = State(paths: seq<string>, token: string, started: bool, quote: Option<char>, escaped: bool, afterComma: bool)

  const START := State([], [], false, None, false, false)

  /** `pushToken`; None is a refusal. */
  function Push(s: State, limit: nat): Option<State>
  {
    if !s.started || s.token == [] || |s.paths| >= limit then None
    else Some(s.(paths := s.paths + [s.token], token := [], started := false))
  }

  function PushStarted(s: State, limit: nat): Option<State>
  {
    if s.started then Push(s, limit) else Some(s)
  }

  function StepQuoted(s: State, c: char, q: char): State
  {
    if s.escaped then s.(token := s.token + (if c == q || c == '\\' then [c] else ['\\', c]), escaped := false)
    else if c == '\\' then s.(escaped := true)
    else if c == q then s.(quote := None)
    else s.(token := s.token + [c], started := true)
  }

  function Step(s: State, c: char, limit: nat): Option<State>
  {
    if s.quote.Some? then Some(StepQuoted(s, c, s.quote.value))
    else if Quote(c) then Some(s.(quote := Some(c), started := true, afterComma := false))
    else if c == ',' then
      var pushed := PushStarted(s, limit);
      if pushed.None? || s.afterComma then None else Some(pushed.value.(afterComma := true))
    else if Space(c) then PushStarted(s, limit)
    else Some(s.(token := s.token + [c], started := true, afterComma := false))
  }

  function Run(s: State, text: string, limit: nat): Option<State>
  {
    if text == [] then Some(s)
    else
      var before := Run(s, text[..|text| - 1], limit);
      if before.None? then None else Step(before.value, text[|text| - 1], limit)
  }

  function Finish(s: State, limit: nat): Option<seq<string>>
  {
    var last := PushStarted(s, limit);
    if s.quote.Some? || s.escaped || last.None? || s.afterComma || last.value.paths == [] then None else Some(last.value.paths)
  }

  function Parse(value: string, limit: nat): Option<seq<string>>
  {
    var end := Run(START, value, limit);
    if end.None? then None else Finish(end.value, limit)
  }

  lemma {:induction false} RunFails(s: State, text: string, n: nat, limit: nat)
    requires n <= |text| && Run(s, text[..n], limit).None?
    ensures Run(s, text, limit).None?
  {
    if n == |text| {
      assert text[..n] == text;
    } else {
      assert text[..|text| - 1][..n] == text[..n];
      RunFails(s, text[..|text| - 1], n, limit);
    }
  }

  method ParsePathList(value: string, maxPathCount: Option<int>) returns (result: Option<seq<string>>)
    ensures result == Parse(value, Limit(maxPathCount))
  {
    var limit := Limit(maxPathCount);
    var paths: seq<string>, token, tokenStarted, quote: Option<char>, escaped, afterComma := [], "", false, None, false, false;
    var next := 0;
    assert value[..0] == [];
    while next < |value|
      invariant next <= |value|
      invariant Run(START, value[..next], limit) == Some(State(paths, token, tokenStarted, quote, escaped, afterComma))
    {
      var character := value[next];
      ghost var before := State(paths, token, tokenStarted, quote, escaped, afterComma);
      next := next + 1;
      RunStep(value, next, limit, before);
      if quote.Some? {
        if escaped {
          token := token + if character == quote.value || character == '\\' then [character] else ['\\', character];
          escaped := false;
          continue;
        }
        if character == '\\' {
          escaped := true;
          continue;
        }
        if character == quote.value {
          quote := None;
          continue;
        }
        token := token + [character];
        tokenStarted := true;
        continue;
      }
      if Quote(character) {
        quote, tokenStarted, afterComma := Some(character), true, false;
        continue;
      }
      if character == ',' || Space(character) {
        if tokenStarted {
          if token == [] || |paths| >= limit || (character == ',' && afterComma) { return None; }
          paths, token, tokenStarted := paths + [token], "", false;
        }
        if character == ',' {
          if afterComma { return None; }
          afterComma := true;
        }
        continue;
      }
      token := token + [character];
      tokenStarted, afterComma := true, false;
    }
    assert value[..next] == value;
    if quote.Some? || escaped { return None; }
    if tokenStarted {
      if token == [] || |paths| >= limit { return None; }
      paths := paths + [token];
    }
    if afterComma || paths == [] { return None; }
    return Some(paths);
  }

  lemma RunStep(value: string, next: nat, limit: nat, before: State)
    requires 0 < next <= |value| && Run(START, value[..next - 1], limit) == Some(before)
    ensures Run(START, value[..next], limit) == Step(before, value[next - 1], limit)
    ensures Step(before, value[next - 1], limit).None? ==> Run(START, value, limit).None?
  {
    hide Step;
    assert value[..next][..next - 1] == value[..next - 1];
    if Step(before, value[next - 1], limit).None? { RunFails(START, value, next, limit); }
  }

  // ---------------------------------------------------------------- what it accepts

  ghost predicate Good(s: State, limit: nat)
  {
    |s.paths| <= limit && forall i | 0 <= i < |s.paths| :: s.paths[i] != []
  }

  lemma {:induction false} RunGood(text: string, limit: nat)
    ensures Run(START, text, limit).Some? ==> Good(Run(START, text, limit).value, limit)
  {
    if text != [] {
      RunGood(text[..|text| - 1], limit);
    }
  }

  /** An accepted list has between one path and the limit, none of them empty. */
  lemma AcceptedIsGood(value: string, limit: nat)
    ensures Parse(value, limit).Some? ==>
              var paths := Parse(value, limit).value;
              1 <= |paths| <= limit && forall i | 0 <= i < |paths| :: paths[i] != []
  {
    hide Run;
    RunGood(value, limit);
  }

  // ---------------------------------------------------------------- writing a list down

  /** How a path is written: as it is, or between quotes. */
  datatype Style = Bare | Quoted(mark: char)

  predicate Plain(c: char) { !Quote(c) && c != ',' && !Space(c) }

  predicate Writable(style: Style, path: string)
  {
    && path != []
    && match style
       case Bare => forall i | 0 <= i < |path| :: Plain(path[i])
       case Quoted(mark) => Quote(mark)
  }

  function Escape(path: string, mark: char): string
  {
    if path == [] then []
    else
      var n := |path| - 1;
      Escape(path[..n], mark) + if path[n] == mark || path[n] == '\\' then ['\\', path[n]] else [path[n]]
  }

  function Write(style: Style, path: string): string
  {
    match style
    case Bare => path
    case Quoted(mark) => [mark] + Escape(path, mark) + [mark]
  }

  /** White space with at most one comma in it, and one of the two. */
  predicate Separates(text: string)
  {
    && text != []
    && (forall i | 0 <= i < |text| :: Space(text[i]) || text[i] == ',')
    && (forall i, j | 0 <= i < j < |text| :: text[i] != ',' || text[j] != ',')
  }

  /** Paths, each written in its style and followed by its separator; the last by white space only. */
  datatype Item = Item(path: string, style: Style, after: string)

  predicate Blank(text: string) { forall i | 0 <= i < |text| :: Space(text[i]) }

  predicate WellWritten(items: seq<Item>)
  {
    && (forall i | 0 <= i < |items| :: Writable(items[i].style, items[i].path))
    && (forall i | 0 <= i < |items| - 1 :: Separates(items[i].after))
    && (items != [] ==> Blank(items[|items| - 1].after))
  }

  function WriteList(items: seq<Item>): string
  {
    if items == [] then []
    else
      var n := |items| - 1;
      WriteList(items[..n]) + (Write(items[n].style, items[n].path) + items[n].after)
  }

  function PathsOf(items: seq<Item>): seq<string>
  {
    seq(|items|, i requires 0 <= i < |items| => items[i].path)
  }

  // ---------------------------------------------------------------- and reading it back

  lemma {:induction false} RunJoin(s: State, a: string, b: string, limit: nat)
    ensures Run(s, a + b, limit) == if Run(s, a, limit).None? then None else Run(Run(s, a, limit).value, b, limit)
  {
    hide Step;
    if b == [] {
      assert a + b == a;
    } else {
      var n := |b| - 1;
      assert (a + b)[..|a| + n] == a + b[..n] && (a + b)[|a| + n] == b[n];
      RunJoin(s, a, b[..n], limit);
    }
  }

  lemma RunOne(s: State, c: char, limit: nat)
    ensures Run(s, [c], limit) == Step(s, c, limit)
  {
    hide Step;
    assert [c][..0] == [];
  }

  /** Between two paths. */
  function Ready(paths: seq<string>, comma: bool): State { State(paths, [], false, None, false, comma) }

  /** At the end of a path. */
  function Ended(paths: seq<string>, path: string): State { State(paths, path, true, None, false, false) }

  lemma {:induction false} RunBare(paths: seq<string>, comma: bool, path: string, limit: nat)
    requires Writable(Bare, path)
    ensures Run(Ready(paths, comma), path, limit) == Some(Ended(paths, path))
  {
    var n := |path| - 1;
    if n > 0 {
      RunBare(paths, comma, path[..n], limit);
    }
    assert path == path[..n] + [path[n]];
  }

  lemma {:induction false} RunEscaped(s: State, path: string, mark: char, limit: nat)
    requires s.quote == Some(mark) && !s.escaped && s.started && mark != '\\'
    ensures Run(s, Escape(path, mark), limit) == Some(s.(token := s.token + path))
  {
    hide Step, Run, StepQuoted;
    if path == [] {
      assert Run(s, [], limit) == Some(s) by { RunNothing(s, limit); }
      assert s.token + path == s.token;
    } else {
      var n := |path| - 1;
      var before, c := s.(token := s.token + path[..n]), path[n];
      RunEscaped(s, path[..n], mark, limit);
      RunJoin(s, Escape(path[..n], mark), if c == mark || c == '\\' then ['\\', c] else [c], limit);
      assert s.token + path == before.token + [c];
      EscapedOne(before, c, mark, limit);
    }
  }

  lemma RunNothing(s: State, limit: nat)
    ensures Run(s, [], limit) == Some(s)
  {
  }

  lemma EscapedOne(s: State, c: char, mark: char, limit: nat)
    requires s.quote == Some(mark) && !s.escaped && s.started && mark != '\\'
    ensures Run(s, if c == mark || c == '\\' then ['\\', c] else [c], limit) == Some(s.(token := s.token + [c]))
  {
    hide Run;
    if c == mark || c == '\\' {
      assert ['\\', c] == ['\\'] + [c];
      RunJoin(s, ['\\'], [c], limit);
      RunOne(s, '\\', limit);
      RunOne(s.(escaped := true), c, limit);
    } else {
      RunOne(s, c, limit);
    }
  }

  lemma RunQuoted(paths: seq<string>, comma: bool, path: string, mark: char, limit: nat)
    requires Quote(mark)
    ensures Run(Ready(paths, comma), Write(Quoted(mark), path), limit) == Some(Ended(paths, path))
  {
    hide Run, Escape;
    var open := State(paths, [], true, Some(mark), false, false);
    RunJoin(Ready(paths, comma), [mark] + Escape(path, mark), [mark], limit);
    RunJoin(Ready(paths, comma), [mark], Escape(path, mark), limit);
    RunOne(Ready(paths, comma), mark, limit);
    RunEscaped(open, path, mark, limit);
    assert [] + path == path;
    RunOne(open.(token := path), mark, limit);
  }

  lemma {:induction false} RunSeparator(paths: seq<string>, path: string, text: string, limit: nat)
    requires path != [] && |paths| < limit && Separates(text)
    ensures Run(Ended(paths, path), text, limit) == Some(Ready(paths + [path], ',' in text))
  {
    var n := |text| - 1;
    assert text == text[..n] + [text[n]];
    RunNothing(Ended(paths, path), limit);
    if n > 0 { RunSeparator(paths, path, text[..n], limit); }
  }

  lemma {:induction false} RunBlank(paths: seq<string>, path: string, text: string, limit: nat)
    requires path != [] && |paths| < limit && Blank(text)
    ensures Run(Ended(paths, path), text, limit) == Some(if text == [] then Ended(paths, path) else Ready(paths + [path], false))
  {
    var n := |text| - 1;
    RunNothing(Ended(paths, path), limit);
    if n >= 0 {
      RunBlank(paths, path, text[..n], limit);
    }
  }

  lemma RunWritten(paths: seq<string>, comma: bool, item: Item, limit: nat)
    requires Writable(item.style, item.path)
    ensures Run(Ready(paths, comma), Write(item.style, item.path), limit) == Some(Ended(paths, item.path))
  {
    hide Run, Escape;
    if item.style.Bare? { RunBare(paths, comma, item.path, limit); } else { RunQuoted(paths, comma, item.path, item.style.mark, limit); }
  }

  /** All items but the last end in separators. */
  lemma {:induction false} RunItems(items: seq<Item>, limit: nat)
    requires |items| <= limit && forall i | 0 <= i < |items| :: Writable(items[i].style, items[i].path) && Separates(items[i].after)
    ensures exists comma :: Run(START, WriteList(items), limit) == Some(Ready(PathsOf(items), comma))
  {
    hide Run, Write, Writable, Separates;
    RunNothing(START, limit);
    if items == [] {
      assert START == Ready(PathsOf(items), false);
    } else {
      var n := |items| - 1;
      var before, last := items[..n], items[n];
      RunItems(before, limit);
      var comma :| Run(START, WriteList(before), limit) == Some(Ready(PathsOf(before), comma));
      RunJoin(START, WriteList(before), Write(last.style, last.path) + last.after, limit);
      RunJoin(Ready(PathsOf(before), comma), Write(last.style, last.path), last.after, limit);
      RunWritten(PathsOf(before), comma, last, limit);
      WrittenIsSomething(last);
      RunSeparator(PathsOf(before), last.path, last.after, limit);
      assert PathsOf(before) + [last.path] == PathsOf(items);
    }
  }

  lemma WrittenIsSomething(item: Item)
    requires Writable(item.style, item.path)
    ensures item.path != []
  {
  }

  /** Every list of non-empty paths within the limit can be written down, bare or in either kind of
    * quotes, with commas, spaces or both in between, and is read back as it was. */
  lemma WrittenIsRead(items: seq<Item>, limit: nat)
    requires 1 <= |items| <= limit && WellWritten(items)
    ensures Parse(WriteList(items), limit) == Some(PathsOf(items))
  {
    hide Run, Write, Writable, Separates, Blank;
    var n := |items| - 1;
    var before, last := items[..n], items[n];
    RunItems(before, limit);
    var comma :| Run(START, WriteList(before), limit) == Some(Ready(PathsOf(before), comma));
    RunJoin(START, WriteList(before), Write(last.style, last.path) + last.after, limit);
    RunJoin(Ready(PathsOf(before), comma), Write(last.style, last.path), last.after, limit);
    RunWritten(PathsOf(before), comma, last, limit);
    WrittenIsSomething(last);
    RunBlank(PathsOf(before), last.path, last.after, limit);
    assert PathsOf(before) + [last.path] == PathsOf(items);
  }

  /** One more path than the limit and the whole list is refused. */
  lemma TooManyAreRefused(items: seq<Item>, limit: nat)
    requires |items| == limit + 1 && WellWritten(items)
    ensures Parse(WriteList(items), limit).None?
  {
    hide Run, Write, Writable, Separates;
    var before, last := items[..limit], items[limit];
    RunItems(before, limit);
    var comma :| Run(START, WriteList(before), limit) == Some(Ready(PathsOf(before), comma));
    RunJoin(START, WriteList(before), Write(last.style, last.path) + last.after, limit);
    RunJoin(Ready(PathsOf(before), comma), Write(last.style, last.path), last.after, limit);
    RunWritten(PathsOf(before), comma, last, limit);
    RunFull(PathsOf(before), last.path, last.after, limit);
  }

  lemma {:induction false} RunFull(paths: seq<string>, path: string, text: string, limit: nat)
    requires |paths| == limit && Blank(text)
    ensures Run(Ended(paths, path), text, limit) == if text == [] then Some(Ended(paths, path)) else None
  {
    if text != [] { RunFull(paths, path, text[..|text| - 1], limit); }
  }
}
