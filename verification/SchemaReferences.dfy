/** References are JSON pointers (section 4 of RFC 6901): src/schema-validator.ts, lines 292-301. They
  * are read with the escapes that `appendPath`, lines 317-319, prints. */
module SchemaReferences {
  import opened Json
  import opened SchemaEvaluation
  import opened Strings
  import opened Wrappers

  function EscapeChar(c: char): string { if c == '~' then "~0" else if c == '/' then "~1" else [c] }

  /** `property.replace(/~/g, "~0").replace(/\//g, "~1")` */
  function EscapeName(name: string): string
  {
    if name == [] then [] else EscapeChar(name[0]) + EscapeName(name[1..])
  }

  /** The name with only its tildes escaped: half-way through reading it. */
  function EscapeTildes(name: string): string
  {
    if name == [] then [] else (if name[0] == '~' then "~0" else [name[0]]) + EscapeTildes(name[1..])
  }

  lemma {:induction false} SlashesUnescaped(name: string)
    ensures ReplaceAll(EscapeName(name), '~', '1', '/') == EscapeTildes(name)
  {
    hide ReplaceAll;
    if name == [] {
      NothingReplaced('~', '1', '/');
    } else {
      SlashesUnescaped(name[1..]);
      var rest := EscapeName(name[1..]);
      if name[0] == '~' { ReplaceNearly('0', rest, '~', '1', '/'); }
      else if name[0] == '/' { ReplacePair(rest, '~', '1', '/'); }
      else { ReplaceOther(name[0], rest, '~', '1', '/'); }
    }
  }

  // What the characters in front are read as, whatever follows.

  lemma ReplaceOther(c: char, rest: string, a: char, b: char, x: char)
    requires c != a
    ensures ReplaceAll([c] + rest, a, b, x) == [c] + ReplaceAll(rest, a, b, x)
  {
    assert ([c] + rest)[1..] == rest;
  }

  lemma ReplacePair(rest: string, a: char, b: char, x: char)
    ensures ReplaceAll([a, b] + rest, a, b, x) == [x] + ReplaceAll(rest, a, b, x)
  {
    assert ([a, b] + rest)[2..] == rest;
  }

  lemma ReplaceNearly(c: char, rest: string, a: char, b: char, x: char)
    requires c != a && c != b
    ensures ReplaceAll([a, c] + rest, a, b, x) == [a, c] + ReplaceAll(rest, a, b, x)
  {
    assert ([a, c] + rest)[1..] == [c] + rest;
    ReplaceOther(c, rest, a, b, x);
    assert [a] + ([c] + ReplaceAll(rest, a, b, x)) == [a, c] + ReplaceAll(rest, a, b, x);
  }

  lemma {:induction false} TildesUnescaped(name: string)
    ensures ReplaceAll(EscapeTildes(name), '~', '0', '~') == name
  {
    hide ReplaceAll;
    if name == [] {
      NothingReplaced('~', '0', '~');
    } else {
      TildesUnescaped(name[1..]);
      var rest := EscapeTildes(name[1..]);
      if name[0] == '~' { ReplacePair(rest, '~', '0', '~'); } else { ReplaceOther(name[0], rest, '~', '0', '~'); }
      assert name == [name[0]] + name[1..];
    }
  }

  lemma NothingReplaced(a: char, b: char, x: char)
    ensures ReplaceAll([], a, b, x) == []
  {
  }

  /** A token is read as the name it was printed for, and holds no separator. */
  lemma {:induction false} TokenReadsName(name: string)
    ensures Token(EscapeName(name)) == name && '/' !in EscapeName(name)
  {
    SlashesUnescaped(name);
    TildesUnescaped(name);
    NoSlash(name);
  }

  lemma {:induction false} NoSlash(name: string)
    ensures '/' !in EscapeName(name)
  {
    if name != [] { NoSlash(name[1..]); }
  }

  // ---------------------------------------------------------------- references

  function EscapeAll(names: seq<string>): seq<string>
  {
    seq(|names|, i requires 0 <= i < |names| => EscapeName(names[i]))
  }

  /** The reference that names a place. */
  function Pointer(names: seq<string>): string { "#/" + Join(EscapeAll(names), '/') }

  /** The value at a place: one property after another. */
  function Follow(v: Json, names: seq<string>): Option<Json>
    decreases |names|
  {
    if names == [] then Some(v)
    else if !v.Obj? then None
    else match Lookup(v.fields, names[0])
      case Some(held) => Follow(held, names[1..])
      case None => None
  }

  lemma {:induction false} WalkFollows(v: Json, names: seq<string>)
    ensures Walk(Some(v), EscapeAll(names)) == Follow(v, names)
    decreases |names|
  {
    if names != [] {
      assert EscapeAll(names)[1..] == EscapeAll(names[1..]);
      TokenReadsName(names[0]);
      if v.Obj? {
        var held := Lookup(v.fields, names[0]);
        if held.Some? { WalkFollows(held.value, names[1..]); } else { WalkNowhere(EscapeAll(names[1..])); }
      }
    }
  }

  lemma {:induction false} WalkNowhere(tokens: seq<string>)
    ensures Walk(None, tokens) == None
  {
  }

  /** A reference resolves exactly to the schema at the place it names, whatever characters the names hold. */
  lemma {:induction false} ResolveFollows(root: Json, names: seq<string>)
    requires names != []
    ensures Resolve(root, Pointer(names)) ==
            match Follow(root, names)
            case Some(target) => if IsSchema(target) then Some(target) else None
            case None => None
  {
    hide Walk, Follow, Split, Join;
    var tokens := EscapeAll(names);
    forall i | 0 <= i < |tokens| ensures '/' !in tokens[i] { TokenReadsName(names[i]); }
    JoinSplit(tokens, '/');
    assert Pointer(names)[2..] == Join(tokens, '/');
    WalkFollows(root, names);
  }
}
