/** Configuration values with environment variables: src/openai-compatible-provider/config-values.ts,
  * lines 10-27, 42-62 and 105-150. */
module ConfigTemplate {
  import opened Wrappers

  datatype Part = Literal(value: string) | Env(name: string)
  datatype Reference = Command(config: string) | Template(parts: seq<Part>)

  // ---------------------------------------------------------------- names

  predicate NameStart(c: char) { 'A' <= c <= 'Z' || 'a' <= c <= 'z' || c == '_' }
  predicate NameChar(c: char) { NameStart(c) || '0' <= c <= '9' }

  const UPPER := "ABCDEFGHIJKLMNOPQRSTUVWXYZ"
  const LOWER := "abcdefghijklmnopqrstuvwxyz"
  const DIGITS := "0123456789"

  lemma UpperCase(c: char)
    ensures 'A' <= c <= 'Z' <==> c in UPPER
  {
    if 'A' <= c <= 'Z' { assert UPPER[c as int - 'A' as int] == c; }
  }

  lemma LowerCase(c: char)
    ensures 'a' <= c <= 'z' <==> c in LOWER
  {
    if 'a' <= c <= 'z' { assert LOWER[c as int - 'a' as int] == c; }
  }

  lemma Digit(c: char)
    ensures '0' <= c <= '9' <==> c in DIGITS
  {
    if '0' <= c <= '9' { assert DIGITS[c as int - '0' as int] == c; }
  }

  /** The characters names are made of, written out. */
  lemma NamesAreWrittenIn(c: char)
    ensures NameStart(c) <==> c in UPPER || c in LOWER || c == '_'
    ensures NameChar(c) <==> NameStart(c) || c in DIGITS
  {
    UpperCase(c);
    LowerCase(c);
    Digit(c);
  }

  predicate IsName(s: string)
  {
    s != [] && NameStart(s[0]) && forall i | 0 <= i < |s| :: NameChar(s[i])
  }

  function NameChars(s: string): (n: nat)
    ensures n <= |s| && forall i | 0 <= i < n :: NameChar(s[i])
    ensures n < |s| ==> !NameChar(s[n])
  {
    if s == [] || !NameChar(s[0]) then 0 else 1 + NameChars(s[1..])
  }

  /** Length of the longest name at the start of a text. */
  function NameLength(s: string): (n: nat)
    ensures n <= |s| && (n > 0 ==> IsName(s[..n]))
  {
    if s != [] && NameStart(s[0]) then NameChars(s) else 0
  }

  function IndexOf(s: string, c: char, from: nat): (found: Option<nat>)
    requires from <= |s|
    ensures found.Some? ==> from <= found.value < |s| && s[found.value] == c && forall i | from <= i < found.value :: s[i] != c
    ensures found.None? ==> forall i | from <= i < |s| :: s[i] != c
    decreases |s| - from
  {
    if from == |s| then None else if s[from] == c then Some(from) else IndexOf(s, c, from + 1)
  }

  // ---------------------------------------------------------------- parsing

  /** `appendLiteral` for a literal, `push` for a variable. */
  function Append(parts: seq<Part>, part: Part): seq<Part>
  {
    var n := |parts| - 1;
    if part.Literal? && part.value == [] then parts
    else if part.Literal? && n >= 0 && parts[n].Literal? then parts[n := Literal(parts[n].value + part.value)]
    else parts + [part]
  }

  function AppendAll(parts: seq<Part>, pieces: seq<Part>): seq<Part>
    decreases |pieces|
  {
    if pieces == [] then parts else AppendAll(Append(parts, pieces[0]), pieces[1..])
  }

  /** The piece a text starts with, and its length: a character, an escape or a variable. */
  function FirstPiece(s: string): (first: (Part, nat))
    requires s != []
    ensures 0 < first.1 <= |s|
  {
    if s[0] != '$' then (Literal([s[0]]), 1)
    else if |s| > 1 && (s[1] == '$' || s[1] == '!') then (Literal([s[1]]), 2)
    else if |s| > 1 && s[1] == '{' then
      match IndexOf(s, '}', 2)
      case None => (Literal("$"), 1)
      case Some(end) => (if IsName(s[2..end]) then Env(s[2..end]) else Literal(s[..end + 1]), end + 1)
    else
      var n := NameLength(s[1..]);
      if n > 0 then (Env(s[1..n + 1]), n + 1) else (Literal("$"), 1)
  }

  function Pieces(s: string): seq<Part>
    decreases |s|
  {
    if s == [] then [] else var (piece, length) := FirstPiece(s); [piece] + Pieces(s[length..])
  }

  function Parse(config: string): seq<Part> { AppendAll([], Pieces(config)) }

  function ParseReference(config: string): Reference
  {
    if config != [] && config[0] == '!' then Command(config) else Template(Parse(config))
  }

  // ---------------------------------------------------------------- what a value is made of

  /** A plain character, `$$` or `$!`, a variable with or without braces, braces around something that is not
    * a name, or a dollar sign that starts nothing. */
  datatype Token = Plain(c: char) | Escaped(c: char) | Bare(name: string) | Braced(name: string) | Unnamed(inner: string) | Dollar

  function Written(t: Token): string
  {
    match t
    case Plain(c) => [c]
    case Escaped(c) => ['$', c]
    case Bare(name) => "$" + name
    case Braced(name) => "${" + name + "}"
    case Unnamed(inner) => "${" + inner + "}"
    case Dollar => "$"
  }

  /** An escape stands for its character, a variable for itself, and everything else for its own text. */
  function Stands(t: Token): Part
  {
    match t
    case Escaped(c) => Literal([c])
    case Bare(name) => Env(name)
    case Braced(name) => Env(name)
    case _ => Literal(Written(t))
  }

  /** What may be written in front of `rest`: a bare name ends where no character of a name follows, and a
    * dollar sign starts nothing if no escape, no closed brace and no name follows. */
  ghost predicate MayStand(t: Token, rest: string)
  {
    match t
    case Plain(c) => c != '$'
    case Escaped(c) => c == '$' || c == '!'
    case Bare(name) => IsName(name) && (rest != [] ==> !NameChar(rest[0]))
    case Braced(name) => IsName(name)
    case Unnamed(inner) => !IsName(inner) && '}' !in inner
    case Dollar => rest != [] ==> rest[0] != '$' && rest[0] != '!' && !NameStart(rest[0]) && (rest[0] == '{' ==> '}' !in rest[1..])
  }

  lemma {:induction false} NameEnds(name: string, rest: string)
    requires (forall i | 0 <= i < |name| :: NameChar(name[i])) && (rest != [] ==> !NameChar(rest[0]))
    ensures NameChars(name + rest) == |name|
  {
    if name == [] {
      assert [] + rest == rest;
    } else {
      assert (name + rest)[1..] == name[1..] + rest;
      NameEnds(name[1..], rest);
    }
  }

  /** Whatever may stand in front of a text is read there, for what it stands. */
  lemma TokenIsRead(t: Token, rest: string)
    requires MayStand(t, rest)
    ensures FirstPiece(Written(t) + rest) == (Stands(t), |Written(t)|)
  {
    hide NameChar, NameStart;
    var s := Written(t) + rest;
    match t
    case Bare(name) =>
      BareIsRead(name, rest);
    case Braced(name) => BracesAreRead(name, rest);
    case Unnamed(inner) => BracesAreRead(inner, rest);
    case Dollar =>
      assert s[1..] == rest;
      if |s| > 1 && s[1] == '{' {
        assert forall i | 2 <= i < |s| :: s[i] == rest[1..][i - 2];
        assert IndexOf(s, '}', 2) == None;
      }
    case _ =>
  }

  lemma BareIsRead(name: string, rest: string)
    requires IsName(name) && (rest != [] ==> !NameChar(rest[0]))
    ensures FirstPiece("$" + name + rest) == (Env(name), |name| + 1)
  {
    hide NameChars, IndexOf;
    var s := "$" + name + rest;
    assert s[1..] == name + rest && s[1] == name[0];
    NameEnds(name, rest);
    assert s[1..|name| + 1] == name;
  }

  lemma BracesAreRead(inner: string, rest: string)
    requires '}' !in inner || IsName(inner)
    ensures FirstPiece("${" + inner + "}" + rest) == (if IsName(inner) then Env(inner) else Literal("${" + inner + "}"), |inner| + 3)
  {
    hide NameLength;
    var s, end := "${" + inner + "}" + rest, |inner| + 2;
    assert s[0] == '$' && s[1] == '{' && s[end] == '}' && s[2..end] == inner && s[..end + 1] == "${" + inner + "}";
    assert forall i | 2 <= i < end :: s[i] == inner[i - 2];
    if IsName(inner) { assert forall i | 0 <= i < |inner| :: NameChar(inner[i]); }
    assert IndexOf(s, '}', 2) == Some(end);
  }

  /** And every text has something in front. */
  lemma EveryTextStarts(s: string) returns (t: Token)
    requires s != []
    ensures Written(t) <= s && MayStand(t, s[|Written(t)|..])
  {
    if s[0] != '$' { return Plain(s[0]); }
    if |s| > 1 && (s[1] == '$' || s[1] == '!') { return Escaped(s[1]); }
    if |s| > 1 && s[1] == '{' {
      var end := IndexOf(s, '}', 2);
      if end.None? {
        assert s[1..][1..] == s[2..];
        return Dollar;
      }
      var inner := s[2..end.value];
      assert s[..end.value + 1] == "${" + inner + "}";
      return if IsName(inner) then Braced(inner) else Unnamed(inner);
    }
    if |s| > 1 && NameStart(s[1]) {
      var n := NameChars(s[1..]);
      var name := s[1..n + 1];
      assert name == s[1..][..n] && s[..n + 1] == "$" + name;
      return Bare(name);
    }
    return Dollar;
  }

  /** A run of plain characters can be appended at once. */
  lemma {:induction false} AppendRun(parts: seq<Part>, s: string, end: nat)
    requires end <= |s| && forall i | 0 <= i < end :: s[i] != '$'
    ensures AppendAll(parts, Pieces(s)) == AppendAll(Append(parts, Literal(s[..end])), Pieces(s[end..]))
    decreases end
  {
    hide Append;
    if end == 0 {
      assert s[0..] == s;
      AppendNothing(parts);
    } else {
      var first := Append(parts, Literal([s[0]]));
      PiecesStep(parts, Literal([s[0]]), Pieces(s[1..]));
      AppendRun(first, s[1..], end - 1);
      assert s[1..][end - 1..] == s[end..];
      assert s[..end] == [s[0]] + s[1..][..end - 1];
      AppendTwice(parts, [s[0]], s[1..][..end - 1]);
    }
  }

  lemma AppendNothing(parts: seq<Part>)
    ensures Append(parts, Literal([])) == parts
  {
  }

  lemma AppendTwice(parts: seq<Part>, a: string, b: string)
    requires a != []
    ensures Append(Append(parts, Literal(a)), Literal(b)) == Append(parts, Literal(a + b))
  {
    var n := |parts| - 1;
    if b == [] {
      assert a + b == a;
    } else if n >= 0 && parts[n].Literal? {
      assert (parts[n].value + a) + b == parts[n].value + (a + b);
    }
  }

  lemma PiecesFirst(s: string)
    requires s != []
    ensures Pieces(s) == [FirstPiece(s).0] + Pieces(s[FirstPiece(s).1..])
  {
    hide FirstPiece;
  }

  lemma PiecesStep(parts: seq<Part>, piece: Part, rest: seq<Part>)
    ensures AppendAll(parts, [piece] + rest) == AppendAll(Append(parts, piece), rest)
  {
    assert ([piece] + rest)[1..] == rest;
  }

  /** What is left to parse, appended to what was parsed so far. */
  function Rest(parts: seq<Part>, config: string, index: nat): seq<Part>
    requires index <= |config|
  {
    AppendAll(parts, Pieces(config[index..]))
  }

  lemma RestAfterRun(parts: seq<Part>, config: string, index: nat, end: nat)
    requires index <= end <= |config| && forall i | index <= i < end :: config[i] != '$'
    ensures Rest(parts, config, index) == Rest(Append(parts, Literal(config[index..end])), config, end)
  {
    hide Append, AppendAll, Pieces;
    AppendRun(parts, config[index..], end - index);
    assert config[index..][..end - index] == config[index..end] && config[index..][end - index..] == config[end..];
  }

  lemma RestAfterPiece(parts: seq<Part>, config: string, index: nat, piece: Part, next: nat)
    requires index < next <= |config| && FirstPiece(config[index..]) == (piece, next - index)
    ensures Rest(parts, config, index) == Rest(Append(parts, piece), config, next)
  {
    hide Append, AppendAll, FirstPiece, Pieces;
    PiecesFirst(config[index..]);
    PiecesStep(parts, piece, Pieces(config[next..]));
    assert config[index..][next - index..] == config[next..];
  }

  lemma RestEnds(parts: seq<Part>, config: string)
    ensures Rest(parts, config, |config|) == parts && Rest([], config, 0) == Parse(config)
  {
    assert config[0..] == config && config[|config|..] == [];
    NothingLeft(parts);
  }

  /** `parseConfigValueTemplate`: from one dollar sign to the next. */
  method ParseConfigValueTemplate(config: string) returns (parts: seq<Part>)
    ensures parts == Parse(config)
  {
    hide Append, Rest, FirstPiece, Parse;
    parts := [];
    var index := 0;
    RestEnds([], config);
    while index < |config|
      invariant index <= |config| && Rest(parts, config, index) == Parse(config)
      decreases |config| - index
    {
      var found := IndexOf(config, '$', index);
      var dollar := if found.Some? then found.value else |config|;
      RestAfterRun(parts, config, index, dollar);
      parts := Append(parts, Literal(config[index..dollar]));
      index := dollar;
      if found.None? { break; }
      var piece;
      piece, index := OnePiece(config, dollar);
      RestAfterPiece(parts, config, dollar, piece, index);
      parts := Append(parts, piece);
    }
    RestEnds(parts, config);
  }

  lemma NothingLeft(parts: seq<Part>)
    ensures AppendAll(parts, Pieces([])) == parts
  {
  }

  /** What the dollar sign starts, and where it ends. */
  method OnePiece(config: string, dollar: nat) returns (piece: Part, next: nat)
    requires dollar < |config| && config[dollar] == '$'
    ensures dollar < next <= |config| && FirstPiece(config[dollar..]) == (piece, next - dollar)
  {
    hide IsName, NameLength, IndexOf;
    var rest := config[dollar..];
    var follower := if |rest| > 1 then [rest[1]] else [];
    if follower == "$" || follower == "!" { return Literal(follower), dollar + 2; }
    if follower == "{" {
      var end := IndexOf(rest, '}', 2);
      if end.None? { return Literal("$"), dollar + 1; }
      var name := rest[2..end.value];
      if IsName(name) { return Env(name), dollar + end.value + 1; }
      return Literal(rest[..end.value + 1]), dollar + end.value + 1;
    }
    var n := NameLength(rest[1..]);
    if n > 0 { return Env(rest[1..n + 1]), dollar + n + 1; }
    return Literal("$"), dollar + 1;
  }

  // ---------------------------------------------------------------- normal templates

  /** No empty literal, no two in a row, and names that are names. */
  predicate Normal(parts: seq<Part>)
  {
    && (forall i | 0 <= i < |parts| :: if parts[i].Literal? then parts[i].value != [] else IsName(parts[i].name))
    && (forall i | 0 <= i < |parts| - 1 :: parts[i].Env? || parts[i + 1].Env?)
  }

  lemma {:induction false} AppendAllNormal(parts: seq<Part>, pieces: seq<Part>)
    requires Normal(parts) && forall p | p in pieces :: p.Env? ==> IsName(p.name)
    ensures Normal(AppendAll(parts, pieces))
    decreases |pieces|
  {
    hide IsName;
    if pieces != [] {
      assert pieces[0] in pieces && forall p | p in pieces[1..] :: p in pieces;
      AppendNormal(parts, pieces[0]);
      AppendAllNormal(Append(parts, pieces[0]), pieces[1..]);
    }
  }

  lemma AppendNormal(parts: seq<Part>, piece: Part)
    requires Normal(parts) && (piece.Env? ==> IsName(piece.name))
    ensures Normal(Append(parts, piece))
  {
    hide IsName;
  }

  lemma {:induction false} PiecesNamed(s: string)
    ensures forall p | p in Pieces(s) :: p.Env? ==> IsName(p.name)
    decreases |s|
  {
    hide IsName, FirstPiece;
    if s != [] {
      FirstNamed(s);
      PiecesNamed(s[FirstPiece(s).1..]);
    }
  }

  lemma FirstNamed(s: string)
    requires s != []
    ensures var piece := FirstPiece(s).0; piece.Env? ==> IsName(piece.name)
  {
    hide IsName, IndexOf;
    if |s| > 1 { assert s[1..][..NameLength(s[1..])] == s[1..NameLength(s[1..]) + 1]; }
  }

  /** The parser produces normal templates only. */
  lemma ParseIsNormal(config: string)
    ensures Normal(Parse(config))
  {
    hide Pieces, IsName;
    PiecesNamed(config);
    AppendAllNormal([], Pieces(config));
  }

  // ---------------------------------------------------------------- printing

  function Escape(s: string): string
  {
    if s == [] then [] else (if s[0] == '$' then "$$" else [s[0]]) + Escape(s[1..])
  }

  function PrintPart(part: Part): string
  {
    match part
    case Literal(value) => Escape(value)
    case Env(name) => "${" + name + "}"
  }

  function PrintParts(parts: seq<Part>): string
  {
    if parts == [] then [] else PrintPart(parts[0]) + PrintParts(parts[1..])
  }

  /** A template as a configuration value: `$$` for a dollar sign, and `$!` for an exclamation mark that
    * would otherwise start a command. */
  function Print(parts: seq<Part>): string
  {
    var text := PrintParts(parts);
    if text != [] && text[0] == '!' then "$" + text else text
  }

  lemma FirstEscaped(c: char, tail: string)
    ensures var escaped := if c == '$' then "$$" else [c];
            Pieces(escaped + tail) == [Literal([c])] + Pieces(tail)
  {
    hide IndexOf, NameLength, Pieces;
    var escaped := if c == '$' then "$$" else [c];
    var all := escaped + tail;
    assert all[|escaped|..] == tail;
    PiecesFirst(all);
  }

  lemma EscapedFirst(value: string, rest: string)
    requires value != []
    ensures Pieces(Escape(value) + rest) == [Literal([value[0]])] + Pieces(Escape(value[1..]) + rest)
    ensures Escape([]) + rest == rest
  {
    hide Pieces, Escape;
    var escaped := if value[0] == '$' then "$$" else [value[0]];
    FirstEscaped(value[0], Escape(value[1..]) + rest);
    EscapeSteps(value);
    Associates(escaped, Escape(value[1..]), rest);
    assert [] + rest == rest;
  }

  lemma EscapeSteps(value: string)
    ensures Escape([]) == []
    ensures value != [] ==> Escape(value) == (if value[0] == '$' then "$$" else [value[0]]) + Escape(value[1..])
  {
  }

  lemma Associates(a: string, b: string, c: string)
    ensures (a + b) + c == a + (b + c)
  {
  }

  lemma {:induction false} EscapedPieces(parts: seq<Part>, value: string, rest: string)
    requires value != []
    ensures AppendAll(parts, Pieces(Escape(value) + rest)) == AppendAll(Append(parts, Literal(value)), Pieces(rest))
    decreases |value|
  {
    hide Append, Pieces, Escape, AppendAll;
    var c := value[0];
    EscapedFirst(value, rest);
    PiecesStep(parts, Literal([c]), Pieces(Escape(value[1..]) + rest));
    if |value| > 1 {
      assert value == [c] + value[1..];
      EscapedPieces(Append(parts, Literal([c])), value[1..], rest);
      AppendTwice(parts, [c], value[1..]);
    } else {
      assert value == [c] && value[1..] == [];
    }
  }

  lemma EnvPieces(parts: seq<Part>, name: string, rest: string)
    requires IsName(name)
    ensures AppendAll(parts, Pieces("${" + name + "}" + rest)) == AppendAll(Append(parts, Env(name)), Pieces(rest))
  {
    hide Append;
    var all := "${" + name + "}" + rest;
    var end := |name| + 2;
    assert all[0] == '$' && all[1] == '{' && all[end] == '}' && all[2..end] == name && all[end + 1..] == rest;
    assert forall i | 2 <= i < end :: all[i] == name[i - 2] && NameChar(name[i - 2]);
    assert IndexOf(all, '}', 2) == Some(end);
    assert Pieces(all) == [Env(name)] + Pieces(rest);
    PiecesStep(parts, Env(name), Pieces(rest));
  }

  lemma AppendPushes(before: seq<Part>, part: Part)
    requires part.Literal? ==> part.value != [] && (before == [] || before[|before| - 1].Env?)
    ensures Append(before, part) == before + [part]
  {
  }

  /** Parsing a printed template goes through its parts one by one. */
  lemma {:induction false} PrintedParts(before: seq<Part>, parts: seq<Part>)
    requires Normal(before + parts)
    ensures AppendAll(before, Pieces(PrintParts(parts))) == before + parts
    decreases |parts|
  {
    hide IsName, Pieces, Append, Escape;
    if parts == [] {
      NothingLeft(before);
      assert before + parts == before;
    } else {
      var part, rest := parts[0], PrintParts(parts[1..]);
      assert (before + parts)[|before|] == part;
      if before != [] { assert (before + parts)[|before| - 1] == before[|before| - 1]; }
      AppendPushes(before, part);
      if part.Literal? {
        EscapedPieces(before, part.value, rest);
      } else {
        EnvPieces(before, part.name, rest);
      }
      assert (before + [part]) + parts[1..] == before + parts;
      PrintedParts(before + [part], parts[1..]);
    }
  }

  lemma LeadingBang(text: string)
    requires text != [] && text[0] == '!'
    ensures Pieces("$" + text) == Pieces(text)
  {
    var all := "$" + text;
    assert all[0] == '$' && all[1] == '!' && all[2..] == text[1..];
  }

  /** Every normal template can be written down: parsing what is printed gives it back. */
  lemma PrintParses(parts: seq<Part>)
    requires Normal(parts)
    ensures ParseReference(Print(parts)) == Template(parts)
  {
    hide Pieces, IsName;
    assert [] + parts == parts;
    PrintedParts([], parts);
    var text := PrintParts(parts);
    if text != [] && text[0] == '!' { LeadingBang(text); }
  }

  /** Normal templates are exactly what the parser produces, so print and parse are inverse. */
  lemma NormalIsParsed(parts: seq<Part>)
    ensures Normal(parts) <==> exists config :: Template(parts) == ParseReference(config)
  {
    hide Normal, Parse;
    if Normal(parts) { PrintParses(parts); }
    if config :| Template(parts) == ParseReference(config) { ParseIsNormal(config); }
  }

  // ---------------------------------------------------------------- resolving

  /** `env?.[name] || process.env[name] || undefined`: an empty value counts as missing. */
  function Value(env: map<string, string>, process: map<string, string>, name: string): Option<string>
  {
    if name in env && env[name] != [] then Some(env[name])
    else if name in process && process[name] != [] then Some(process[name])
    else None
  }

  /** The text of a template, if all its variables have values. */
  function Resolved(parts: seq<Part>, env: map<string, string>, process: map<string, string>): Option<string>
  {
    if parts == [] then Some([])
    else
      var n := |parts| - 1;
      var before, last := Resolved(parts[..n], env, process), if parts[n].Literal? then Some(parts[n].value) else Value(env, process, parts[n].name);
      if before.Some? && last.Some? then Some(before.value + last.value) else None
  }

  /** What a part is replaced by: a variable by the value given for it, or else by that of the process; and
    * never by nothing. */
  ghost predicate Yields(part: Part, env: map<string, string>, process: map<string, string>, text: string)
  {
    match part
    case Literal(value) => text == value
    case Env(name) =>
      text != [] && if name in env && env[name] != [] then text == env[name] else name in process && text == process[name]
  }

  function Flat(texts: seq<string>): string
  {
    if texts == [] then [] else texts[0] + Flat(texts[1..])
  }

  /** One text for each part, in their order. */
  ghost predicate AllYield(parts: seq<Part>, env: map<string, string>, process: map<string, string>, texts: seq<string>)
  {
    |texts| == |parts| && forall i | 0 <= i < |parts| :: Yields(parts[i], env, process, texts[i])
  }

  lemma YieldsExactly(part: Part, env: map<string, string>, process: map<string, string>, text: string)
    ensures Yields(part, env, process, text) <==> (if part.Literal? then Some(part.value) else Value(env, process, part.name)) == Some(text)
  {
  }

  lemma {:induction false} FlatJoin(texts: seq<string>, last: string)
    ensures Flat(texts + [last]) == Flat(texts) + last
  {
    if texts == [] {
      assert [last][1..] == [] && last + [] == last && [] + last == last;
    } else {
      assert (texts + [last])[1..] == texts[1..] + [last];
      FlatJoin(texts[1..], last);
    }
  }

  lemma {:induction false} ResolvedYields(parts: seq<Part>, env: map<string, string>, process: map<string, string>) returns (texts: seq<string>)
    requires Resolved(parts, env, process).Some?
    ensures AllYield(parts, env, process, texts) && Resolved(parts, env, process).value == Flat(texts)
  {
    hide Yields, Value, Flat;
    if parts == [] {
      texts := [];
      assert Flat([]) == [] by { NothingFlat(); }
    } else {
      var n := |parts| - 1;
      var before := ResolvedYields(parts[..n], env, process);
      var last := if parts[n].Literal? then parts[n].value else Value(env, process, parts[n].name).value;
      YieldsExactly(parts[n], env, process, last);
      FlatJoin(before, last);
      texts := before + [last];
    }
  }

  lemma NothingFlat()
    ensures Flat([]) == []
  {
  }

  lemma {:induction false} YieldsResolved(parts: seq<Part>, env: map<string, string>, process: map<string, string>, texts: seq<string>)
    requires AllYield(parts, env, process, texts)
    ensures Resolved(parts, env, process) == Some(Flat(texts))
    decreases |parts|
  {
    hide Yields, Value, Flat;
    NothingFlat();
    if parts != [] {
      var n := |parts| - 1;
      YieldsResolved(parts[..n], env, process, texts[..n]);
      YieldsExactly(parts[n], env, process, texts[n]);
      FlatJoin(texts[..n], texts[n]);
      assert texts == texts[..n] + [texts[n]];
    }
  }

  /** A template resolves to a text exactly when the text is what its parts yield, one after another. */
  lemma ResolvedInOrder(parts: seq<Part>, env: map<string, string>, process: map<string, string>, text: string)
    ensures Resolved(parts, env, process) == Some(text) <==> exists texts :: AllYield(parts, env, process, texts) && text == Flat(texts)
  {
    hide Resolved, AllYield, Flat;
    if Resolved(parts, env, process) == Some(text) { var texts := ResolvedYields(parts, env, process); }
    if texts :| AllYield(parts, env, process, texts) && text == Flat(texts) { YieldsResolved(parts, env, process, texts); }
  }

  method ResolveTemplate(parts: seq<Part>, env: map<string, string>, process: map<string, string>) returns (resolved: Option<string>)
    ensures resolved == Resolved(parts, env, process)
  {
    var text, next := "", 0;
    assert parts[..0] == [];
    while next < |parts|
      invariant next <= |parts| && Resolved(parts[..next], env, process) == Some(text)
    {
      assert parts[..next + 1][..next] == parts[..next];
      var value := if parts[next].Literal? then Some(parts[next].value) else Value(env, process, parts[next].name);
      if value.None? {
        MissingFails(parts, next, env, process);
        return None;
      }
      text := text + value.value;
      next := next + 1;
    }
    assert parts[..next] == parts;
    return Some(text);
  }

  lemma {:induction false} MissingFails(parts: seq<Part>, i: nat, env: map<string, string>, process: map<string, string>)
    requires i < |parts| && parts[i].Env? && Value(env, process, parts[i].name).None?
    ensures Resolved(parts, env, process).None?
  {
    if i < |parts| - 1 { MissingFails(parts[..|parts| - 1], i, env, process); }
  }

  /** `getTemplateEnvVarNames`: every variable once, in order of first use. */
  function Names(parts: seq<Part>): (names: seq<string>)
    ensures forall name :: name in names <==> Env(name) in parts
    ensures forall i, j | 0 <= i < j < |names| :: names[i] != names[j]
  {
    if parts == [] then []
    else
      var n := |parts| - 1;
      assert parts == parts[..n] + [parts[n]];
      var before := Names(parts[..n]);
      if parts[n].Literal? || parts[n].name in before then before else before + [parts[n].name]
  }

  method GetTemplateEnvVarNames(parts: seq<Part>) returns (names: seq<string>)
    ensures names == Names(parts)
  {
    names := [];
    var next := 0;
    assert parts[..0] == [];
    while next < |parts|
      invariant next <= |parts| && names == Names(parts[..next])
    {
      assert parts[..next + 1][..next] == parts[..next];
      if parts[next].Env? && parts[next].name !in names { names := names + [parts[next].name]; }
      next := next + 1;
    }
    assert parts[..next] == parts;
  }

  function MissingNames(names: seq<string>, env: map<string, string>, process: map<string, string>): (missing: seq<string>)
    ensures forall name :: name in missing <==> name in names && Value(env, process, name).None?
  {
    if names == [] then []
    else
      var n := |names| - 1;
      assert names == names[..n] + [names[n]];
      var before := MissingNames(names[..n], env, process);
      if Value(env, process, names[n]).None? then before + [names[n]] else before
  }

  /** Resolution fails exactly when a listed variable is missing. */
  lemma {:induction false} FailsExactlyWhenMissing(parts: seq<Part>, env: map<string, string>, process: map<string, string>)
    ensures Resolved(parts, env, process).None? <==> MissingNames(Names(parts), env, process) != []
  {
    hide Names, MissingNames, Value;
    var missing := MissingNames(Names(parts), env, process);
    if Resolved(parts, env, process).None? {
      var name := CauseOfFailure(parts, env, process);
      assert name in missing;
    }
    if missing != [] {
      assert missing[0] in missing && Env(missing[0]) in parts;
      var i :| 0 <= i < |parts| && parts[i] == Env(missing[0]);
      MissingFails(parts, i, env, process);
    }
  }

  lemma {:induction false} CauseOfFailure(parts: seq<Part>, env: map<string, string>, process: map<string, string>) returns (name: string)
    requires Resolved(parts, env, process).None?
    ensures Env(name) in parts && Value(env, process, name).None?
  {
    var n := |parts| - 1;
    if parts[n].Env? && Value(env, process, parts[n].name).None? {
      name := parts[n].name;
    } else {
      name := CauseOfFailure(parts[..n], env, process);
    }
  }

  datatype Failure = CommandFailed(command: string) | MissingOne(name: string) | MissingMany(names: seq<string>)
  datatype Resolution = Ok(value: string) | Err(failure: Failure)

  /** `resolveConfigValueOrThrow`; `run` stands for the shell. A template that fails names what is
    * missing: the error without a cause is never raised. */
  method ResolveConfigValueOrThrow(config: string, env: map<string, string>, process: map<string, string>, run: string -> Option<string>)
    returns (outcome: Resolution)
    ensures ParseReference(config).Command? ==>
              var answer := run(config[1..]);
              outcome == if answer.Some? then Ok(answer.value) else Err(CommandFailed(config[1..]))
    ensures ParseReference(config).Template? ==>
              var resolved := Resolved(ParseReference(config).parts, env, process);
              var missing := MissingNames(Names(ParseReference(config).parts), env, process);
              if resolved.Some? then outcome == Ok(resolved.value)
              else missing != [] && outcome == Err(if |missing| == 1 then MissingOne(missing[0]) else MissingMany(missing))
  {
    hide Parse, Resolved, Names, MissingNames;
    if config != [] && config[0] == '!' {
      var answer := run(config[1..]);
      return if answer.Some? then Ok(answer.value) else Err(CommandFailed(config[1..]));
    }
    var parts := ParseConfigValueTemplate(config);
    var resolved := ResolveTemplate(parts, env, process);
    if resolved.Some? { return Ok(resolved.value); }
    FailsExactlyWhenMissing(parts, env, process);
    var names := GetTemplateEnvVarNames(parts);
    var missing := MissingNames(names, env, process);
    if |missing| == 1 { return Err(MissingOne(missing[0])); }
    return Err(MissingMany(missing));
  }

  /** Any text can be configured literally, whatever the environment. */
  lemma LiteralResolves(text: string, env: map<string, string>, process: map<string, string>)
    ensures var parts := if text == [] then [] else [Literal(text)];
            ParseReference(Print(parts)) == Template(parts) && Resolved(parts, env, process) == Some(text)
  {
    hide Parse;
    var parts := if text == [] then [] else [Literal(text)];
    PrintParses(parts);
    if text != [] { assert parts[..0] == [] && [] + text == text; }
  }
}
