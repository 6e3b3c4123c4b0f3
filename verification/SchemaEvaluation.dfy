/** What one validation reports: src/schema-validator.ts, lines 103-338.
  *
  * A schema is itself a JSON value, as in the code. `Eval` is the report of `validateSchema`:
  * the errors in the order they are found, and whether the evaluation threw. A chain of `$ref`
  * longer than `fuel` counts as a throw: a cycle of references overflows the stack. */
module SchemaEvaluation {
  import opened Json
  import opened StableJson
  import opened Strings
  import opened Wrappers

  datatype Segment = Index(i: nat) | Property(name: string)
  type Path = seq<Segment>

  datatype SchemaError = SchemaError(path: Path, keyword: string, detail: Json)
  datatype Run = Run(errors: seq<SchemaError>, threw: bool)

  /** The root schema, the engine's regular expressions and its number formatting. */
  datatype Env = Env(root: Json, matches: (string, string) -> bool, show: int -> string)

  const OK := Run([], false)
  const THROW := Run([], true)

  function Fail(path: Path, keyword: string, detail: Json): Run
  {
    Run([SchemaError(path, keyword, detail)], false)
  }

  /** One check after another: a throw ends the evaluation, and so does an error unless all are wanted. */
  function Then(all: bool, first: Run, rest: Run): Run
  {
    if first.threw || (!all && first.errors != []) then first
    else Run(first.errors + rest.errors, rest.threw)
  }

  // ---------------------------------------------------------------- reading a schema

  predicate IsSchema(v: Json) { v.Bool? || v.Obj? }

  function Keyword(schema: Json, name: string): (value: Option<Json>)
    ensures value.Some? ==> value.value < schema
  {
    if schema.Obj? then Lookup(schema.fields, name) else None
  }

  /** The properties of a keyword that holds an object, none otherwise. */
  function Children(schema: Json, name: string): (fields: seq<Field>)
    ensures forall f | f in fields :: f.value < schema
  {
    match Keyword(schema, name)
    case Some(Obj(fields)) => fields
    case _ => []
  }

  /** `replace(/ab/g, c)` for the two-character pattern "ab". */
  function ReplaceAll(s: string, a: char, b: char, c: char): string
  {
    if |s| < 2 then s
    else if s[0] == a && s[1] == b then [c] + ReplaceAll(s[2..], a, b, c)
    else [s[0]] + ReplaceAll(s[1..], a, b, c)
  }

  function Token(token: string): string { ReplaceAll(ReplaceAll(token, '~', '1', '/'), '~', '0', '~') }

  function Walk(current: Option<Json>, tokens: seq<string>): Option<Json>
    decreases |tokens|
  {
    if tokens == [] then current
    else if current.Some? && current.value.Obj? then Walk(Lookup(current.value.fields, Token(tokens[0])), tokens[1..])
    else None
  }

  /** `resolveReference`; None is a throw. */
  function Resolve(root: Json, reference: string): (target: Option<Json>)
    ensures target.Some? ==> IsSchema(target.value)
  {
    if !("#/" <= reference) then None
    else match Walk(Some(root), Split(reference[2..], '/'))
      case Some(target) => if IsSchema(target) then Some(target) else None
      case None => None
  }

  // ---------------------------------------------------------------- keywords without subschemas

  predicate MatchesTypeName(name: string, value: Json)
  {
    if name == "null" then value.Null?
    else if name == "array" then value.Arr?
    else if name == "object" then value.Obj?
    else if name == "integer" then value.Num? && value.n.Finite? && value.n.units % ONE == 0
    else if name == "number" then value.Num? && value.n.Finite?
    else if name == "string" then value.Str?
    else name == "boolean" && value.Bool?
  }

  /** `matchesType`: a name, or an array of which one element matches. */
  predicate MatchesType(declared: Json, value: Json)
  {
    match declared
    case Str(name) => MatchesTypeName(name, value)
    case Arr(options) => exists i | 0 <= i < |options| :: MatchesType(options[i], value)
    case _ => false
  }

  function ConstRun(env: Env, schema: Json, value: Json, path: Path): (run: Run)
    ensures |run.errors| <= 1 && !run.threw
  {
    var constant, choices := Keyword(schema, "const"), Keyword(schema, "enum");
    if constant.Some? && !JsonEqual(env.show, value, constant.value) then Fail(path, "const", constant.value)
    else if choices.Some? && choices.value.Arr?
         && !exists i | 0 <= i < |choices.value.items| :: JsonEqual(env.show, value, choices.value.items[i])
    then Fail(path, "enum", choices.value)
    else OK
  }

  /** A numeric keyword that `breaks` rejects. */
  function LimitRun(schema: Json, name: string, breaks: Number -> bool, path: Path): (run: Run)
    ensures |run.errors| <= 1 && !run.threw
  {
    match Keyword(schema, name)
    case Some(Num(limit)) => if breaks(limit) then Fail(path, name, Num(limit)) else OK
    case _ => OK
  }

  function Count(n: nat): Number { Finite(n * ONE) }

  /** Length in UTF-16 code units. */
  function Units(s: string): nat
  {
    if s == [] then 0 else (if s[0] as int < 0x1_0000 then 1 else 2) + Units(s[1..])
  }

  function StringRun(env: Env, all: bool, schema: Json, s: string, path: Path): Run
  {
    Then(all, LimitRun(schema, "minLength", limit => Less(Count(Units(s)), limit), path),
      Then(all, LimitRun(schema, "maxLength", limit => Less(limit, Count(Units(s))), path),
        PatternRun(env, schema, s, path)))
  }

  function PatternRun(env: Env, schema: Json, s: string, path: Path): (run: Run)
    ensures |run.errors| <= 1 && !run.threw
  {
    match Keyword(schema, "pattern")
    case Some(Str(pattern)) => if env.matches(pattern, s) then OK else Fail(path, "pattern", Str(pattern))
    case _ => OK
  }

  function NumberRun(all: bool, schema: Json, n: Number, path: Path): Run
  {
    Then(all, LimitRun(schema, "minimum", limit => Less(n, limit), path),
      Then(all, LimitRun(schema, "exclusiveMinimum", limit => !Less(limit, n), path),
        LimitRun(schema, "maximum", limit => Less(limit, n), path)))
  }

  function Texts(show: int -> string, items: seq<Json>): seq<string>
  {
    seq(|items|, i requires 0 <= i < |items| => StableText(show, items[i]))
  }

  /** `new Set(value.map(stableJson)).size !== value.length` */
  predicate HasDuplicates(show: int -> string, items: seq<Json>)
  {
    |set t | t in Texts(show, items)| != |items|
  }

  function SizeRun(env: Env, all: bool, schema: Json, items: seq<Json>, path: Path): Run
  {
    Then(all, LimitRun(schema, "minItems", limit => Less(Count(|items|), limit), path),
      Then(all, LimitRun(schema, "maxItems", limit => Less(limit, Count(|items|)), path),
        if Keyword(schema, "uniqueItems") == Some(Bool(true)) && HasDuplicates(env.show, items)
        then Fail(path, "uniqueItems", Null) else OK))
  }

  function RequiredRun(all: bool, required: seq<Json>, fields: seq<Field>, path: Path): Run
  {
    if required == [] then OK
    else
      Then(all, if required[0].Str? && Lookup(fields, required[0].s).None? then Fail(path, "required", required[0]) else OK,
           RequiredRun(all, required[1..], fields, path))
  }

  // ---------------------------------------------------------------- schemas

  function Eval(env: Env, all: bool, fuel: nat, schema: Json, value: Json, path: Path): Run
    requires IsSchema(schema)
    decreases fuel, schema, 9
  {
    if schema.Bool? then (if schema.b then OK else Fail(path, "false schema", Null))
    else match Keyword(schema, "$ref")
      case Some(Str(reference)) =>
        var target := Resolve(env.root, reference);
        if target.None? || fuel == 0 then THROW else Eval(env, all, fuel - 1, target.value, value, path)
      case _ => SiblingsRun(env, all, fuel, schema, value, path)
  }

  /** A schema object that is not a reference. A wrong type ends the evaluation in either mode. */
  function SiblingsRun(env: Env, all: bool, fuel: nat, schema: Json, value: Json, path: Path): Run
    requires schema.Obj?
    decreases fuel, schema, 8, 3
  {
    Then(all, AnyOfKeyword(env, all, fuel, schema, value, path),
      Then(all, ConstRun(env, schema, value, path),
        TypedRun(env, all, fuel, schema, value, path)))
  }

  function TypedRun(env: Env, all: bool, fuel: nat, schema: Json, value: Json, path: Path): Run
    requires schema.Obj?
    decreases fuel, schema, 8, 2
  {
    var declared := Keyword(schema, "type");
    if declared.Some? && !MatchesType(declared.value, value) then Fail(path, "type", declared.value)
    else KindRun(env, all, fuel, schema, value, path)
  }

  /** The keywords for the kind of value at hand. */
  function KindRun(env: Env, all: bool, fuel: nat, schema: Json, value: Json, path: Path): Run
    requires schema.Obj?
    decreases fuel, schema, 8, 1
  {
    match value
    case Str(s) => StringRun(env, all, schema, s, path)
    case Num(n) => NumberRun(all, schema, n, path)
    case Arr(items) => ArrayRun(env, all, fuel, schema, items, path)
    case Obj(fields) => ObjectRun(env, all, fuel, schema, fields, path)
    case _ => OK
  }

  function AnyOfKeyword(env: Env, all: bool, fuel: nat, schema: Json, value: Json, path: Path): Run
    requires schema.Obj?
    decreases fuel, schema, 8, 0
  {
    match Keyword(schema, "anyOf")
    case Some(Arr(candidates)) => AnyOfRun(env, all, fuel, schema, candidates, value, path)
    case _ => OK
  }

  /** The candidates in order until one matches. Their own errors are dropped. */
  function AnyOfRun(env: Env, all: bool, fuel: nat, schema: Json, candidates: seq<Json>, value: Json, path: Path): Run
    requires forall c | c in candidates :: c < schema
    decreases fuel, schema, 7, |candidates|
  {
    if candidates == [] then Fail(path, "anyOf", Null)
    else if !IsSchema(candidates[0]) then THROW
    else
      assert candidates[0] in candidates;
      var branch := Eval(env, all, fuel, candidates[0], value, path);
      if branch.threw then THROW
      else if branch.errors == [] then OK
      else
        assert forall c | c in candidates[1..] :: c in candidates;
        AnyOfRun(env, all, fuel, schema, candidates[1..], value, path)
  }

  function ArrayRun(env: Env, all: bool, fuel: nat, schema: Json, items: seq<Json>, path: Path): Run
    requires schema.Obj?
    decreases fuel, schema, 8, 0
  {
    var each := Keyword(schema, "items");
    Then(all, SizeRun(env, all, schema, items, path),
         if each.Some? && IsSchema(each.value) then ItemsRun(env, all, fuel, each.value, items, 0, path) else OK)
  }

  function ItemsRun(env: Env, all: bool, fuel: nat, each: Json, items: seq<Json>, index: nat, path: Path): Run
    requires IsSchema(each) && index <= |items|
    decreases fuel, each, 10, |items| - index
  {
    if index == |items| then OK
    else Then(all, Eval(env, all, fuel, each, items[index], path + [Index(index)]),
              ItemsRun(env, all, fuel, each, items, index + 1, path))
  }

  function ObjectRun(env: Env, all: bool, fuel: nat, schema: Json, fields: seq<Field>, path: Path): Run
    requires schema.Obj?
    decreases fuel, schema, 8, 0
  {
    Then(all, RequiredKeyword(all, schema, fields, path),
         if exists f | f in Children(schema, "patternProperties") :: !IsSchema(f.value) then THROW
         else PropertiesRun(env, all, fuel, schema, fields, path))
  }

  function RequiredKeyword(all: bool, schema: Json, fields: seq<Field>, path: Path): Run
  {
    match Keyword(schema, "required")
    case Some(Arr(required)) => RequiredRun(all, required, fields, path)
    case _ => OK
  }

  function PropertiesRun(env: Env, all: bool, fuel: nat, schema: Json, fields: seq<Field>, path: Path): Run
    requires schema.Obj? && forall f | f in Children(schema, "patternProperties") :: IsSchema(f.value)
    decreases fuel, schema, 7, |fields|
  {
    if fields == [] then OK
    else Then(all, PropertyRun(env, all, fuel, schema, fields[0], path),
              PropertiesRun(env, all, fuel, schema, fields[1..], path))
  }

  /** The schema of that name in `properties`, if there is one. */
  function OwnSchema(schema: Json, key: string): (own: Option<Json>)
    ensures own.Some? ==> IsSchema(own.value) && own.value < schema
  {
    match Lookup(Children(schema, "properties"), key)
    case Some(s) => if IsSchema(s) then Some(s) else None
    case None => None
  }

  /** One property: its own schema, the patterns its name matches, or what is left to the rest. */
  function PropertyRun(env: Env, all: bool, fuel: nat, schema: Json, field: Field, path: Path): Run
    requires schema.Obj? && forall f | f in Children(schema, "patternProperties") :: IsSchema(f.value)
    decreases fuel, schema, 6
  {
    var own, patterns := OwnSchema(schema, field.key), Children(schema, "patternProperties");
    Then(all, if own.Some? then Eval(env, all, fuel, own.value, field.value, path + [Property(field.key)]) else OK,
      Then(all, PatternsRun(env, all, fuel, schema, patterns, field, path),
        if own.Some? || Matched(env, patterns, field.key) then OK
        else AdditionalRun(env, all, fuel, schema, field, path)))
  }

  ghost predicate Subschemas(schema: Json, patterns: seq<Field>)
  {
    forall f | f in patterns :: f.value < schema && IsSchema(f.value)
  }

  predicate Matched(env: Env, patterns: seq<Field>, key: string)
  {
    exists f | f in patterns :: env.matches(f.key, key)
  }

  function PatternsRun(env: Env, all: bool, fuel: nat, schema: Json, patterns: seq<Field>, field: Field, path: Path): Run
    requires Subschemas(schema, patterns)
    decreases fuel, schema, 5, |patterns|
  {
    if patterns == [] then OK
    else
      assert patterns[0] in patterns;
      Then(all,
        if env.matches(patterns[0].key, field.key)
        then Eval(env, all, fuel, patterns[0].value, field.value, path + [Property(field.key)]) else OK,
        PatternsRun(env, all, fuel, schema, patterns[1..], field, path))
  }

  function AdditionalRun(env: Env, all: bool, fuel: nat, schema: Json, field: Field, path: Path): Run
    decreases fuel, schema, 4
  {
    match Keyword(schema, "additionalProperties")
    case Some(Bool(allowed)) => if allowed then OK else Fail(path, "additionalProperties", Str(field.key))
    case Some(s) => if s.Obj? then Eval(env, all, fuel, s, field.value, path + [Property(field.key)]) else OK
    case None => OK
  }
}
