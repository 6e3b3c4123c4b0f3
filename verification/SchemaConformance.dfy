/** What a schema asks of a value, said without reference to how it is checked: the keywords of
  * JSON Schema draft-07, validation section 6, with `$ref` overriding its siblings (core
  * section 8.3). The validator decides exactly this. */
module SchemaConformance {
  import opened Json
  import opened SchemaEvaluation
  import opened StableJson
  import opened StableJsonCode
  import opened Strings
  import opened Wrappers

  function Limit(schema: Json, name: string): Option<Number>
  {
    match Keyword(schema, name)
    case Some(Num(limit)) => Some(limit)
    case _ => None
  }

  /** Values are the same when they are equal up to the order of keys. */
  ghost predicate Same(a: Json, b: Json) { MeaningOf(a) == MeaningOf(b) }

  /** The type a value has: a number is an integer when it is a whole number of ones. */
  ghost predicate HasTypeName(name: string, value: Json)
  {
    match value
    case Null => name == "null"
    case Bool(_) => name == "boolean"
    case Num(n) => n.Finite? && (name == "number" || (name == "integer" && exists k: int :: n == Finite(k * ONE)))
    case Str(_) => name == "string"
    case Arr(_) => name == "array"
    case Obj(_) => name == "object"
  }

  /** A declared type is a name, or an array of types one of which the value has. */
  ghost predicate HasType(declared: Json, value: Json)
  {
    match declared
    case Str(name) => HasTypeName(name, value)
    case Arr(options) => exists o | o in options :: HasType(o, value)
    case _ => false
  }

  /** UTF-16: a character beyond the basic plane is two surrogates (RFC 2781, section 2.1). */
  function EncodeUtf16(s: string): seq<int>
  {
    if s == [] then []
    else
      var c := s[0] as int;
      (if c < 0x1_0000 then [c] else [0xD800 + (c - 0x1_0000) / 0x400, 0xDC00 + (c - 0x1_0000) % 0x400]) + EncodeUtf16(s[1..])
  }

  function Length(s: string): nat { |EncodeUtf16(s)| }

  ghost predicate Conforms(env: Env, fuel: nat, schema: Json, value: Json)
    requires IsSchema(schema)
    decreases fuel, schema, 3
  {
    if schema.Bool? then schema.b
    else match Keyword(schema, "$ref")
      case Some(Str(reference)) =>
        var target := Resolve(env.root, reference);
        target.Some? && fuel > 0 && Conforms(env, fuel - 1, target.value, value)
      case _ =>
        && AnyOfConforms(env, fuel, schema, value)
        && ConstConforms(schema, value)
        && TypeConforms(schema, value)
        && KindConforms(env, fuel, schema, value)
  }

  ghost predicate TypeConforms(schema: Json, value: Json)
  {
    Keyword(schema, "type").Some? ==> HasType(Keyword(schema, "type").value, value)
  }

  ghost predicate AnyOfConforms(env: Env, fuel: nat, schema: Json, value: Json)
    requires schema.Obj?
    decreases fuel, schema, 2
  {
    match Keyword(schema, "anyOf")
    case Some(Arr(candidates)) => exists c | c in candidates :: IsSchema(c) && Conforms(env, fuel, c, value)
    case _ => true
  }

  ghost predicate ConstConforms(schema: Json, value: Json)
  {
    var constant, choices := Keyword(schema, "const"), Keyword(schema, "enum");
    && (constant.Some? ==> Same(value, constant.value))
    && (choices.Some? && choices.value.Arr? ==> exists i | 0 <= i < |choices.value.items| :: Same(value, choices.value.items[i]))
  }

  ghost predicate KindConforms(env: Env, fuel: nat, schema: Json, value: Json)
    requires schema.Obj?
    decreases fuel, schema, 2
  {
    match value
    case Str(s) =>
      var least, most, pattern := Limit(schema, "minLength"), Limit(schema, "maxLength"), Keyword(schema, "pattern");
      && (least.Some? ==> !Less(Count(Length(s)), least.value))
      && (most.Some? ==> !Less(most.value, Count(Length(s))))
      && (pattern.Some? && pattern.value.Str? ==> env.matches(pattern.value.s, s))
    case Num(n) =>
      var least, above, most := Limit(schema, "minimum"), Limit(schema, "exclusiveMinimum"), Limit(schema, "maximum");
      && (least.Some? ==> !Less(n, least.value))
      && (above.Some? ==> Less(above.value, n))
      && (most.Some? ==> !Less(most.value, n))
    case Arr(items) =>
      var least, most, each := Limit(schema, "minItems"), Limit(schema, "maxItems"), Keyword(schema, "items");
      && (least.Some? ==> !Less(Count(|items|), least.value))
      && (most.Some? ==> !Less(most.value, Count(|items|)))
      && (Keyword(schema, "uniqueItems") == Some(Bool(true)) ==> AllDifferent(items))
      && (each.Some? && IsSchema(each.value) ==> forall i | 0 <= i < |items| :: Conforms(env, fuel, each.value, items[i]))
    case Obj(fields) =>
      && HasRequired(schema, fields)
      && (forall i | 0 <= i < |fields| :: PropertyConforms(env, fuel, schema, fields[i]))
    case _ => true
  }

  ghost predicate AllDifferent(items: seq<Json>)
  {
    forall i, j | 0 <= i < j < |items| :: !Same(items[i], items[j])
  }

  /** Every required name is a property of the object. */
  predicate HasRequired(schema: Json, fields: seq<Field>)
  {
    match Keyword(schema, "required")
    case Some(Arr(required)) => forall i | 0 <= i < |required| && required[i].Str? :: Lookup(fields, required[i].s).Some?
    case _ => true
  }

  /** A property meets its own schema and those of all patterns its name matches; one that has
    * neither meets `additionalProperties`. */
  ghost predicate PropertyConforms(env: Env, fuel: nat, schema: Json, field: Field)
    requires schema.Obj?
    decreases fuel, schema, 1
  {
    var own, patterns := OwnSchema(schema, field.key), Children(schema, "patternProperties");
    && (own.Some? ==> Conforms(env, fuel, own.value, field.value))
    && (forall f | f in patterns && env.matches(f.key, field.key) :: IsSchema(f.value) && Conforms(env, fuel, f.value, field.value))
    && (own.None? && !Matched(env, patterns, field.key) ==>
          AdditionalConforms(env, fuel, schema, field))
  }

  ghost predicate AdditionalConforms(env: Env, fuel: nat, schema: Json, field: Field)
    decreases fuel, schema, 0
  {
    var additional := Keyword(schema, "additionalProperties");
    additional.Some? && IsSchema(additional.value) ==> Conforms(env, fuel, additional.value, field.value)
  }

  // ---------------------------------------------------------------- the validator decides it

  /** A full report that did not throw is empty exactly when `p` holds. */
  ghost predicate Decides(run: Run, p: bool)
  {
    !run.threw ==> (run.errors == [] <==> p)
  }

  lemma LookupWellFormed(v: Json, key: string)
    requires v.Obj? && WellFormed(v) && Lookup(v.fields, key).Some?
    ensures WellFormed(Lookup(v.fields, key).value)
  {
    var i :| 0 <= i < |v.fields| && v.fields[i] == Field(key, Lookup(v.fields, key).value);
    assert WellFormed(v.fields[i].value);
  }

  lemma KeywordWellFormed(schema: Json, key: string)
    requires WellFormed(schema)
    ensures Keyword(schema, key).Some? ==> WellFormed(Keyword(schema, key).value)
  {
    if Keyword(schema, key).Some? { LookupWellFormed(schema, key); }
  }

  lemma {:induction false} WalkWellFormed(current: Option<Json>, tokens: seq<string>)
    requires current.Some? ==> WellFormed(current.value)
    ensures Walk(current, tokens).Some? ==> WellFormed(Walk(current, tokens).value)
    decreases |tokens|
  {
    if tokens != [] && current.Some? && current.value.Obj? {
      KeywordWellFormed(current.value, Token(tokens[0]));
      WalkWellFormed(Lookup(current.value.fields, Token(tokens[0])), tokens[1..]);
    }
  }

  lemma ResolveWellFormed(root: Json, reference: string)
    requires WellFormed(root)
    ensures Resolve(root, reference).Some? ==> WellFormed(Resolve(root, reference).value)
  {
    if "#/" <= reference { WalkWellFormed(Some(root), Split(reference[2..], '/')); }
  }

  /** A list has as many different elements as places exactly when none occurs twice. */
  lemma {:induction false} DistinctCount<T>(s: seq<T>)
    ensures var elements := set x | x in s;
            |elements| <= |s| && (|elements| == |s| <==> forall i, j | 0 <= i < j < |s| :: s[i] != s[j])
  {
    var elements := set x | x in s;
    if s != [] {
      var n := |s| - 1;
      var before := set x | x in s[..n];
      DistinctCount(s[..n]);
      assert elements == before + {s[n]};
      if s[n] in before {
        var i :| 0 <= i < n && s[..n][i] == s[n];
        assert s[i] == s[n] && elements == before;
      } else {
        assert forall i | 0 <= i < n :: s[..n][i] == s[i];
      }
    }
  }

  lemma DuplicatesDecided(show: int -> string, items: seq<Json>)
    requires NumberText(show) && forall i | 0 <= i < |items| :: WellFormed(items[i])
    ensures HasDuplicates(show, items) <==> !AllDifferent(items)
  {
    hide StableText, MeaningOf, NumberText, WellFormed;
    DistinctCount(Texts(show, items));
    forall i, j | 0 <= i < j < |items| ensures Texts(show, items)[i] == Texts(show, items)[j] <==> Same(items[i], items[j]) {
      JsonEqualIsStructural(show, items[i], items[j]);
    }
  }

  /** A compiled schema and a parsed value: objects have distinct keys, numbers distinct texts. */
  ghost predicate Sane(env: Env, schema: Json)
  {
    NumberText(env.show) && WellFormed(env.root) && WellFormed(schema)
  }

  lemma ConstDecided(env: Env, schema: Json, value: Json, path: Path)
    requires Sane(env, schema) && WellFormed(value)
    ensures Decides(ConstRun(env, schema, value, path), ConstConforms(schema, value))
  {
    hide StableText, MeaningOf, NumberText, JsonEqual, Same;
    KeywordWellFormed(schema, "const");
    KeywordWellFormed(schema, "enum");
    var constant, choices := Keyword(schema, "const"), Keyword(schema, "enum");
    if constant.Some? { SameDecided(env.show, value, constant.value); }
    if choices.Some? && choices.value.Arr? {
      forall i | 0 <= i < |choices.value.items| ensures JsonEqual(env.show, value, choices.value.items[i]) <==> Same(value, choices.value.items[i]) {
        SameDecided(env.show, value, choices.value.items[i]);
      }
    }
  }

  lemma SameDecided(show: int -> string, a: Json, b: Json)
    requires NumberText(show) && WellFormed(a) && WellFormed(b)
    ensures JsonEqual(show, a, b) <==> Same(a, b)
  {
    JsonEqualIsStructural(show, a, b);
  }

  lemma {:induction false} TypeDecided(declared: Json, value: Json)
    ensures MatchesType(declared, value) <==> HasType(declared, value)
  {
    match declared
    case Str(name) => TypeNameDecided(name, value);
    case Arr(options) =>
      forall i | 0 <= i < |options| ensures MatchesType(options[i], value) <==> HasType(options[i], value) { TypeDecided(options[i], value); }
    case _ =>
  }

  lemma TypeNameDecided(name: string, value: Json)
    ensures MatchesTypeName(name, value) <==> HasTypeName(name, value)
  {
    if value.Num? && value.n.Finite? {
      var units := value.n.units;
      if units % ONE == 0 { assert value.n == Finite(units / ONE * ONE); }
      if k: int :| value.n == Finite(k * ONE) { MultipleDivides(value.n.units, k, ONE); }
    }
  }

  lemma MultipleDivides(m: int, k: int, n: nat)
    requires n > 0 && m == k * n
    ensures m % n == 0
  {
    var d, r := k - m / n, m % n;
    assert d * n == k * n - m / n * n == r;
    if d > 0 {
      Product(d - 1, n);
    } else if d < 0 {
      Product(-d - 1, n);
    }
  }

  lemma Product(a: nat, b: nat)
    ensures a * b >= 0 && (a + 1) * b == a * b + b
  {
  }

  lemma {:induction false} UnitsAreLength(s: string)
    ensures Units(s) == Length(s)
  {
    if s != [] { UnitsAreLength(s[1..]); }
  }

  /** For every schema, value and bound on `$ref`: a complete report is empty exactly when the value
    * conforms. */
  lemma {:induction false} EvalDecides(env: Env, fuel: nat, schema: Json, value: Json, path: Path)
    requires IsSchema(schema) && Sane(env, schema) && WellFormed(value)
    ensures Decides(Eval(env, true, fuel, schema, value, path), Conforms(env, fuel, schema, value))
    decreases fuel, schema, 9
  {
    hide SiblingsRun, AnyOfConforms, ConstConforms, KindConforms;
    if schema.Obj? {
      var ref := Keyword(schema, "$ref");
      if ref.Some? && ref.value.Str? {
        var target := Resolve(env.root, ref.value.s);
        ResolveWellFormed(env.root, ref.value.s);
        if target.Some? && fuel > 0 { EvalDecides(env, fuel - 1, target.value, value, path); }
      } else {
        SiblingsDecide(env, fuel, schema, value, path);
      }
    }
  }

  lemma SiblingsDecide(env: Env, fuel: nat, schema: Json, value: Json, path: Path)
    requires schema.Obj? && Sane(env, schema) && WellFormed(value)
    ensures Decides(SiblingsRun(env, true, fuel, schema, value, path),
              && AnyOfConforms(env, fuel, schema, value)
              && ConstConforms(schema, value)
              && TypeConforms(schema, value)
              && KindConforms(env, fuel, schema, value))
    decreases fuel, schema, 8, 2
  {
    hide AnyOfKeyword, ConstRun, KindRun, AnyOfConforms, ConstConforms, KindConforms, Sane, WellFormed, HasType, MatchesType;
    if Keyword(schema, "type").Some? { TypeDecided(Keyword(schema, "type").value, value); }
    AnyOfKeywordDecides(env, fuel, schema, value, path);
    ConstDecided(env, schema, value, path);
    KindDecides(env, fuel, schema, value, path);
  }

  lemma AnyOfKeywordDecides(env: Env, fuel: nat, schema: Json, value: Json, path: Path)
    requires schema.Obj? && Sane(env, schema) && WellFormed(value)
    ensures Decides(AnyOfKeyword(env, true, fuel, schema, value, path), AnyOfConforms(env, fuel, schema, value))
    decreases fuel, schema, 8, 0
  {
    hide AnyOfRun, Conforms, NumberText;
    KeywordWellFormed(schema, "anyOf");
    var anyOf := Keyword(schema, "anyOf");
    if anyOf.Some? && anyOf.value.Arr? {
      AnyOfDecides(env, fuel, schema, anyOf.value.items, value, path);
    }
  }

  lemma {:induction false} AnyOfDecides(env: Env, fuel: nat, schema: Json, candidates: seq<Json>, value: Json, path: Path)
    requires forall c | c in candidates :: c < schema && WellFormed(c)
    requires NumberText(env.show) && WellFormed(env.root) && WellFormed(value)
    ensures Decides(AnyOfRun(env, true, fuel, schema, candidates, value, path),
                    exists c | c in candidates :: IsSchema(c) && Conforms(env, fuel, c, value))
    decreases fuel, schema, 7, |candidates|
  {
    hide Eval, Conforms;
    if candidates != [] && IsSchema(candidates[0]) {
      assert candidates[0] in candidates;
      assert forall c | c in candidates :: c == candidates[0] || c in candidates[1..];
      assert forall c | c in candidates[1..] :: c in candidates;
      EvalDecides(env, fuel, candidates[0], value, path);
      AnyOfDecides(env, fuel, schema, candidates[1..], value, path);
    }
  }

  lemma KindDecides(env: Env, fuel: nat, schema: Json, value: Json, path: Path)
    requires schema.Obj? && Sane(env, schema) && WellFormed(value)
    ensures Decides(KindRun(env, true, fuel, schema, value, path), KindConforms(env, fuel, schema, value))
    decreases fuel, schema, 8, 1
  {
    hide ArrayRun, ObjectRun, Sane, Conforms, Length, Units;
    match value
    case Str(s) => UnitsAreLength(s);
    case Arr(items) => ArrayDecides(env, fuel, schema, value, path);
    case Obj(fields) => ObjectDecides(env, fuel, schema, value, path);
    case _ =>
  }

  lemma ArrayDecides(env: Env, fuel: nat, schema: Json, value: Json, path: Path)
    requires schema.Obj? && Sane(env, schema) && WellFormed(value) && value.Arr?
    ensures Decides(ArrayRun(env, true, fuel, schema, value.items, path), KindConforms(env, fuel, schema, value))
    decreases fuel, schema, 8, 0
  {
    hide PropertiesRun, PropertyConforms, RequiredRun, NumberText;
    DuplicatesDecided(env.show, value.items);
    KeywordWellFormed(schema, "items");
    var each := Keyword(schema, "items");
    if each.Some? && IsSchema(each.value) { ItemsDecide(env, fuel, each.value, value.items, 0, path); }
  }

  lemma {:induction false} ItemsDecide(env: Env, fuel: nat, each: Json, items: seq<Json>, index: nat, path: Path)
    requires IsSchema(each) && index <= |items| && Sane(env, each) && forall i | 0 <= i < |items| :: WellFormed(items[i])
    ensures Decides(ItemsRun(env, true, fuel, each, items, index, path), forall i | index <= i < |items| :: Conforms(env, fuel, each, items[i]))
    decreases fuel, each, 10, |items| - index
  {
    hide Eval, Conforms, Sane;
    if index < |items| {
      EvalDecides(env, fuel, each, items[index], path + [Index(index)]);
      ItemsDecide(env, fuel, each, items, index + 1, path);
    }
  }

  lemma {:induction false} RequiredDecides(required: seq<Json>, fields: seq<Field>, path: Path)
    ensures Decides(RequiredRun(true, required, fields, path),
                    forall i | 0 <= i < |required| && required[i].Str? :: Lookup(fields, required[i].s).Some?)
    ensures !RequiredRun(true, required, fields, path).threw
  {
    if required != [] {
      RequiredDecides(required[1..], fields, path);
      assert forall i | 0 < i < |required| :: required[i] == required[1..][i - 1];
    }
  }

  lemma FieldsWellFormed(value: Json)
    requires value.Obj? && WellFormed(value)
    ensures forall i | 0 <= i < |value.fields| :: WellFormed(value.fields[i].value)
  {
  }

  lemma ObjectDecides(env: Env, fuel: nat, schema: Json, value: Json, path: Path)
    requires schema.Obj? && Sane(env, schema) && WellFormed(value) && value.Obj?
    ensures Decides(ObjectRun(env, true, fuel, schema, value.fields, path), KindConforms(env, fuel, schema, value))
    decreases fuel, schema, 8, 0
  {
    hide PropertiesRun, RequiredRun, PropertyConforms, Sane, WellFormed;
    FieldsWellFormed(value);
    var required := Keyword(schema, "required");
    if required.Some? && required.value.Arr? { RequiredDecides(required.value.items, value.fields, path); }
    if forall f | f in Children(schema, "patternProperties") :: IsSchema(f.value) {
      PropertiesDecide(env, fuel, schema, value.fields, path);
    }
  }

  lemma {:induction false} PropertiesDecide(env: Env, fuel: nat, schema: Json, fields: seq<Field>, path: Path)
    requires schema.Obj? && Sane(env, schema) && forall i | 0 <= i < |fields| :: WellFormed(fields[i].value)
    requires forall f | f in Children(schema, "patternProperties") :: IsSchema(f.value)
    ensures Decides(PropertiesRun(env, true, fuel, schema, fields, path), forall i | 0 <= i < |fields| :: PropertyConforms(env, fuel, schema, fields[i]))
    decreases fuel, schema, 7, |fields|
  {
    hide PropertyRun, PropertyConforms, Sane;
    if fields != [] {
      PropertyDecides(env, fuel, schema, fields[0], path);
      PropertiesDecide(env, fuel, schema, fields[1..], path);
      assert forall i | 0 < i < |fields| :: fields[i] == fields[1..][i - 1];
    }
  }

  lemma ChildWellFormed(schema: Json, name: string, f: Field)
    requires WellFormed(schema) && f in Children(schema, name)
    ensures WellFormed(f.value)
  {
    hide Eval, PatternsRun, AdditionalRun, Conforms, AdditionalConforms, WellFormed, NumberText;
    KeywordWellFormed(schema, name);
    var i :| 0 <= i < |Children(schema, name)| && Children(schema, name)[i] == f;
  }

  lemma PropertyDecides(env: Env, fuel: nat, schema: Json, field: Field, path: Path)
    requires schema.Obj? && Sane(env, schema) && WellFormed(field.value)
    requires forall f | f in Children(schema, "patternProperties") :: IsSchema(f.value)
    ensures Decides(PropertyRun(env, true, fuel, schema, field, path), PropertyConforms(env, fuel, schema, field))
    decreases fuel, schema, 6
  {
    hide Eval, Conforms, PatternsRun, AdditionalRun, AdditionalConforms, NumberText, Lookup, Keyword, Matched;
    var own, patterns := OwnSchema(schema, field.key), Children(schema, "patternProperties");
    if own.Some? {
      var properties := Keyword(schema, "properties");
      KeywordWellFormed(schema, "properties");
      KeywordWellFormed(properties.value, field.key);
      EvalDecides(env, fuel, own.value, field.value, path + [Property(field.key)]);
    }
    forall f | f in patterns ensures WellFormed(f.value) { ChildWellFormed(schema, "patternProperties", f); }
    PatternsDecide(env, fuel, schema, patterns, field, path);
    AdditionalDecides(env, fuel, schema, field, path);
  }

  lemma {:induction false} PatternsDecide(env: Env, fuel: nat, schema: Json, patterns: seq<Field>, field: Field, path: Path)
    requires forall f | f in patterns :: f.value < schema && IsSchema(f.value) && WellFormed(f.value)
    requires NumberText(env.show) && WellFormed(env.root) && WellFormed(field.value)
    ensures Decides(PatternsRun(env, true, fuel, schema, patterns, field, path),
                    forall f | f in patterns && env.matches(f.key, field.key) :: Conforms(env, fuel, f.value, field.value))
    decreases fuel, schema, 5, |patterns|
  {
    hide Eval, Conforms;
    if patterns != [] {
      assert patterns[0] in patterns;
      assert forall f | f in patterns :: f == patterns[0] || f in patterns[1..];
      assert forall f | f in patterns[1..] :: f in patterns;
      PatternsDecide(env, fuel, schema, patterns[1..], field, path);
      if env.matches(patterns[0].key, field.key) {
        EvalDecides(env, fuel, patterns[0].value, field.value, path + [Property(field.key)]);
      }
    }
  }

  lemma AdditionalDecides(env: Env, fuel: nat, schema: Json, field: Field, path: Path)
    requires schema.Obj? && Sane(env, schema) && WellFormed(field.value)
    ensures Decides(AdditionalRun(env, true, fuel, schema, field, path), AdditionalConforms(env, fuel, schema, field))
    decreases fuel, schema, 4
  {
    KeywordWellFormed(schema, "additionalProperties");
    var additional := Keyword(schema, "additionalProperties");
    if additional.Some? && IsSchema(additional.value) {
      EvalDecides(env, fuel, additional.value, field.value, path + [Property(field.key)]);
    }
  }

  // ---------------------------------------------------------------- the smallest schemas

  lemma OnlyKeyword(name: string, held: Json, other: string)
    ensures Keyword(Obj([Field(name, held)]), other) == if other == name then Some(held) else None
  {
    assert [Field(name, held)][1..] == [];
  }

  /** A schema that declares a type and nothing else accepts exactly the values of that type. */
  lemma TypeAlone(env: Env, all: bool, fuel: nat, declared: Json, value: Json, path: Path)
    ensures var run := Eval(env, all, fuel, Obj([Field("type", declared)]), value, path);
            !run.threw && run.errors == if HasType(declared, value) then [] else [SchemaError(path, "type", declared)]
  {
    hide Keyword, HasType, MatchesType, KindRun;
    var schema := Obj([Field("type", declared)]);
    forall other ensures Keyword(schema, other) == if other == "type" then Some(declared) else None { OnlyKeyword("type", declared, other); }
    TypeDecided(declared, value);
    NothingElse(env, all, fuel, schema, value, path);
    assert AnyOfKeyword(env, all, fuel, schema, value, path) == OK && ConstRun(env, schema, value, path) == OK;
    assert TypedRun(env, all, fuel, schema, value, path) == if HasType(declared, value) then OK else Fail(path, "type", declared);
    assert Eval(env, all, fuel, schema, value, path) == SiblingsRun(env, all, fuel, schema, value, path);
  }

  lemma NothingElse(env: Env, all: bool, fuel: nat, schema: Json, value: Json, path: Path)
    requires schema.Obj? && forall other | other != "type" :: Keyword(schema, other) == None
    ensures KindRun(env, all, fuel, schema, value, path) == OK
  {
    hide Keyword, PropertiesRun, ItemsRun, RequiredRun, Less, Count, Units, HasDuplicates;
    match value
    case Str(s) => assert StringRun(env, all, schema, s, path) == OK;
    case Num(n) => assert NumberRun(all, schema, n, path) == OK;
    case Arr(items) => assert SizeRun(env, all, schema, items, path) == OK;
    case Obj(fields) =>
      assert Children(schema, "patternProperties") == [];
      NoProperties(env, all, fuel, schema, fields, path);
    case _ =>
  }

  lemma {:induction false} NoProperties(env: Env, all: bool, fuel: nat, schema: Json, fields: seq<Field>, path: Path)
    requires schema.Obj? && forall other | other != "type" :: Keyword(schema, other) == None
    requires Children(schema, "patternProperties") == []
    ensures PropertiesRun(env, all, fuel, schema, fields, path) == OK
  {
    hide Keyword, Eval;
    if fields != [] {
      NoProperties(env, all, fuel, schema, fields[1..], path);
      assert Children(schema, "properties") == [];
      assert AdditionalRun(env, all, fuel, schema, fields[0], path) == OK;
      assert PropertyRun(env, all, fuel, schema, fields[0], path) == OK;
    }
  }
}
