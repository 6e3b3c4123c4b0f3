/** The validator as it runs: src/schema-validator.ts, lines 49-60 and 103-280. Each method keeps
  * a `valid` flag and pushes to `context.errors`, and is proved against the report `Eval`. */
module SchemaValidator {
  import opened Json
  import opened SchemaConformance
  import opened SchemaEvaluation
  import opened SchemaGrounded
  import opened SchemaModes
  import opened StableJson
  import opened Wrappers

  class ValidationContext {
    var errors: seq<SchemaError>
    const allErrors: bool

    constructor (allErrors: bool)
      ensures errors == [] && this.allErrors == allErrors
    {
      this.errors := [];
      this.allErrors := allErrors;
    }

    method Fail(path: Path, keyword: string, detail: Json) returns (valid: bool)
      modifies this`errors
      ensures !valid && errors == old(errors) + [SchemaError(path, keyword, detail)]
    {
      errors := errors + [SchemaError(path, keyword, detail)];
      return false;
    }
  }

  datatype Verdict = Valid(ok: bool) | Threw

  /** The validator did what the report says: pushed its errors, and answered whether there were any. */
  ghost predicate Reports(run: Run, before: seq<SchemaError>, after: seq<SchemaError>, verdict: Verdict)
  {
    after == before + run.errors && verdict == if run.threw then Threw else Valid(run.errors == [])
  }

  method ValidateLimit(schema: Json, name: string, breaks: Number -> bool, path: Path, context: ValidationContext) returns (valid: bool)
    modifies context
    ensures Reports(LimitRun(schema, name, breaks, path), old(context.errors), context.errors, Valid(valid))
  {
    var limit := Keyword(schema, name);
    if limit.Some? && limit.value.Num? && breaks(limit.value.n) {
      valid := context.Fail(path, name, limit.value);
      return;
    }
    return true;
  }

  method ValidateConstAndEnum(env: Env, schema: Json, value: Json, path: Path, context: ValidationContext) returns (valid: bool)
    modifies context
    ensures Reports(ConstRun(env, schema, value, path), old(context.errors), context.errors, Valid(valid))
  {
    var constant, choices := Keyword(schema, "const"), Keyword(schema, "enum");
    if constant.Some? && !JsonEqual(env.show, value, constant.value) {
      valid := context.Fail(path, "const", constant.value);
      return;
    }
    if choices.Some? && choices.value.Arr? && !exists i | 0 <= i < |choices.value.items| :: JsonEqual(env.show, value, choices.value.items[i]) {
      valid := context.Fail(path, "enum", choices.value);
      return;
    }
    return true;
  }

  method ValidateString(env: Env, schema: Json, s: string, path: Path, context: ValidationContext) returns (valid: bool)
    modifies context
    ensures Reports(StringRun(env, context.allErrors, schema, s, path), old(context.errors), context.errors, Valid(valid))
  {
    hide LimitRun, PatternRun, Less, Units;
    valid := ValidateLimit(schema, "minLength", limit => Less(Count(Units(s)), limit), path, context);
    if !valid && !context.allErrors { return; }
    var short := ValidateLimit(schema, "maxLength", limit => Less(limit, Count(Units(s))), path, context);
    valid := short && valid;
    if !valid && !context.allErrors { return; }
    var fits := ValidatePattern(env, schema, s, path, context);
    valid := fits && valid;
  }

  method ValidatePattern(env: Env, schema: Json, s: string, path: Path, context: ValidationContext) returns (valid: bool)
    modifies context
    ensures Reports(PatternRun(env, schema, s, path), old(context.errors), context.errors, Valid(valid))
  {
    var pattern := Keyword(schema, "pattern");
    if pattern.Some? && pattern.value.Str? && !env.matches(pattern.value.s, s) {
      valid := context.Fail(path, "pattern", pattern.value);
      return;
    }
    return true;
  }

  method ValidateNumber(schema: Json, n: Number, path: Path, context: ValidationContext) returns (valid: bool)
    modifies context
    ensures Reports(NumberRun(context.allErrors, schema, n, path), old(context.errors), context.errors, Valid(valid))
  {
    hide LimitRun;
    valid := ValidateLimit(schema, "minimum", limit => Less(n, limit), path, context);
    if !valid && !context.allErrors { return; }
    var above := ValidateLimit(schema, "exclusiveMinimum", limit => !Less(limit, n), path, context);
    valid := above && valid;
    if !valid && !context.allErrors { return; }
    var below := ValidateLimit(schema, "maximum", limit => Less(limit, n), path, context);
    valid := below && valid;
  }

  method ValidateSize(env: Env, schema: Json, items: seq<Json>, path: Path, context: ValidationContext) returns (valid: bool)
    modifies context
    ensures Reports(SizeRun(env, context.allErrors, schema, items, path), old(context.errors), context.errors, Valid(valid))
  {
    hide LimitRun, HasDuplicates;
    valid := ValidateLimit(schema, "minItems", limit => Less(Count(|items|), limit), path, context);
    if !valid && !context.allErrors { return; }
    var few := ValidateLimit(schema, "maxItems", limit => Less(limit, Count(|items|)), path, context);
    valid := few && valid;
    if !valid && !context.allErrors { return; }
    if Keyword(schema, "uniqueItems") == Some(Bool(true)) && HasDuplicates(env.show, items) {
      var failed := context.Fail(path, "uniqueItems", Null);
      valid := failed && valid;
    }
  }

  method ValidateSchema(env: Env, fuel: nat, schema: Json, value: Json, path: Path, context: ValidationContext) returns (verdict: Verdict)
    requires IsSchema(schema)
    modifies context
    ensures Reports(Eval(env, context.allErrors, fuel, schema, value, path), old(context.errors), context.errors, verdict)
    decreases fuel, schema, 9
  {
    if schema.Bool? {
      if schema.b { return Valid(true); }
      var failed := context.Fail(path, "false schema", Null);
      return Valid(failed);
    }
    var reference := Keyword(schema, "$ref");
    if reference.Some? && reference.value.Str? {
      var target := Resolve(env.root, reference.value.s);
      if target.None? || fuel == 0 { return Threw; }
      verdict := ValidateSchema(env, fuel - 1, target.value, value, path, context);
      return;
    }
    verdict := ValidateSiblings(env, fuel, schema, value, path, context);
  }

  /** `validateSchema` after the reference test. */
  method ValidateSiblings(env: Env, fuel: nat, schema: Json, value: Json, path: Path, context: ValidationContext) returns (verdict: Verdict)
    requires schema.Obj?
    modifies context
    ensures Reports(SiblingsRun(env, context.allErrors, fuel, schema, value, path), old(context.errors), context.errors, verdict)
    decreases fuel, schema, 8, 3
  {
    hide AnyOfKeyword, ConstRun, KindRun, Keyword, MatchesType;
    verdict := ValidateAnyOf(env, fuel, schema, value, path, context);
    if verdict.Threw? || (!verdict.ok && !context.allErrors) { return; }
    var valid := verdict.ok;
    var constant := ValidateConstAndEnum(env, schema, value, path, context);
    valid := constant && valid;
    if !valid && !context.allErrors { return Valid(false); }
    var declared := Keyword(schema, "type");
    if declared.Some? && !MatchesType(declared.value, value) {
      var failed := context.Fail(path, "type", declared.value);
      return Valid(failed && valid);
    }
    verdict := ValidateKind(env, fuel, schema, value, path, context);
    if verdict.Valid? { verdict := Valid(verdict.ok && valid); }
  }

  method ValidateKind(env: Env, fuel: nat, schema: Json, value: Json, path: Path, context: ValidationContext) returns (verdict: Verdict)
    requires schema.Obj?
    modifies context
    ensures Reports(KindRun(env, context.allErrors, fuel, schema, value, path), old(context.errors), context.errors, verdict)
    decreases fuel, schema, 8, 1
  {
    match value {
      case Str(s) =>
        var ok := ValidateString(env, schema, s, path, context);
        return Valid(ok);
      case Num(n) =>
        var ok := ValidateNumber(schema, n, path, context);
        return Valid(ok);
      case Arr(items) => verdict := ValidateArray(env, fuel, schema, items, path, context);
      case Obj(fields) => verdict := ValidateObject(env, fuel, schema, fields, path, context);
      case _ => return Valid(true);
    }
  }

  /** The candidates are tried with a context of their own, whose errors are dropped. */
  method ValidateAnyOf(env: Env, fuel: nat, schema: Json, value: Json, path: Path, context: ValidationContext) returns (verdict: Verdict)
    requires schema.Obj?
    modifies context
    ensures Reports(AnyOfKeyword(env, context.allErrors, fuel, schema, value, path), old(context.errors), context.errors, verdict)
    decreases fuel, schema, 8, 0
  {
    var anyOf := Keyword(schema, "anyOf");
    if anyOf.None? || !anyOf.value.Arr? { return Valid(true); }
    var candidates := anyOf.value.items;
    var next := 0;
    while next < |candidates|
      invariant next <= |candidates| && context.errors == old(context.errors)
      invariant forall c | c in candidates[next..] :: c < schema
      invariant AnyOfRun(env, context.allErrors, fuel, schema, candidates[next..], value, path) ==
                AnyOfRun(env, context.allErrors, fuel, schema, candidates, value, path)
    {
      var candidate := candidates[next];
      assert candidate == candidates[next..][0] && candidate in candidates[next..];
      assert candidates[next..][1..] == candidates[next + 1..];
      if !IsSchema(candidate) { return Threw; }
      var branch := new ValidationContext(context.allErrors);
      var matched := ValidateSchema(env, fuel, candidate, value, path, branch);
      if matched.Threw? || matched.ok { return matched; }
      next := next + 1;
    }
    var failed := context.Fail(path, "anyOf", Null);
    return Valid(failed);
  }

  // ---------------------------------------------------------------- loops

  /** A loop in the middle: `whole` is the errors found so far followed by what is left to do. */
  ghost predicate Continues(all: bool, whole: Run, soFar: seq<SchemaError>, rest: Run)
  {
    whole == Run(soFar + rest.errors, rest.threw) && (all || soFar == [])
  }

  lemma LoopEnds(all: bool, whole: Run, soFar: seq<SchemaError>)
    ensures Continues(all, whole, [], whole)
    ensures Continues(all, whole, soFar, OK) ==> whole == Run(soFar, false)
  {
  }

  lemma LoopStep(all: bool, whole: Run, soFar: seq<SchemaError>, first: Run, rest: Run)
    requires Continues(all, whole, soFar, Then(all, first, rest))
    ensures first.threw || (!all && first.errors != []) ==> whole == Run(soFar + first.errors, first.threw)
    ensures !first.threw && (all || first.errors == []) ==> Continues(all, whole, soFar + first.errors, rest)
  {
  }

  method ValidateItems(env: Env, fuel: nat, each: Json, items: seq<Json>, path: Path, context: ValidationContext) returns (verdict: Verdict)
    requires IsSchema(each)
    modifies context
    ensures Reports(ItemsRun(env, context.allErrors, fuel, each, items, 0, path), old(context.errors), context.errors, verdict)
    decreases fuel, each, 10
  {
    hide Eval, ItemsRun, Continues;
    ghost var all, before, soFar := context.allErrors, context.errors, [];
    ghost var whole := ItemsRun(env, all, fuel, each, items, 0, path);
    var valid, index := true, 0;
    LoopEnds(all, whole, []);
    ItemsFrom(env, all, fuel, each, items, |items|, path);
    while index < |items|
      invariant index <= |items| && context.errors == before + soFar && valid == (soFar == [])
      invariant Continues(all, whole, soFar, ItemsRun(env, all, fuel, each, items, index, path))
    {
      ghost var first := Eval(env, all, fuel, each, items[index], path + [Index(index)]);
      ItemsFrom(env, all, fuel, each, items, index, path);
      LoopStep(all, whole, soFar, first, ItemsRun(env, all, fuel, each, items, index + 1, path));
      var item := ValidateSchema(env, fuel, each, items[index], path + [Index(index)], context);
      soFar := soFar + first.errors;
      if item.Threw? { return Threw; }
      valid := item.ok && valid;
      if !valid && !context.allErrors { return Valid(false); }
      index := index + 1;
    }
    LoopEnds(all, whole, soFar);
    return Valid(valid);
  }

  lemma ItemsFrom(env: Env, all: bool, fuel: nat, each: Json, items: seq<Json>, index: nat, path: Path)
    requires IsSchema(each) && index <= |items|
    ensures ItemsRun(env, all, fuel, each, items, index, path) ==
            if index == |items| then OK
            else Then(all, Eval(env, all, fuel, each, items[index], path + [Index(index)]), ItemsRun(env, all, fuel, each, items, index + 1, path))
  {
    hide Eval;
  }

  method ValidateArray(env: Env, fuel: nat, schema: Json, items: seq<Json>, path: Path, context: ValidationContext) returns (verdict: Verdict)
    requires schema.Obj?
    modifies context
    ensures Reports(ArrayRun(env, context.allErrors, fuel, schema, items, path), old(context.errors), context.errors, verdict)
    decreases fuel, schema, 8, 0
  {
    hide SizeRun, ItemsRun;
    var valid := ValidateSize(env, schema, items, path, context);
    if !valid && !context.allErrors { return Valid(false); }
    var each := Keyword(schema, "items");
    if each.None? || !IsSchema(each.value) { return Valid(valid); }
    verdict := ValidateItems(env, fuel, each.value, items, path, context);
    if verdict.Valid? { verdict := Valid(verdict.ok && valid); }
  }

  method ValidateRequired(schema: Json, fields: seq<Field>, path: Path, context: ValidationContext) returns (valid: bool)
    modifies context
    ensures Reports(RequiredKeyword(context.allErrors, schema, fields, path), old(context.errors), context.errors, Valid(valid))
  {
    valid := true;
    var required := Keyword(schema, "required");
    if required.None? || !required.value.Arr? { return; }
    var names := required.value.items;
    ghost var all, before, soFar := context.allErrors, context.errors, [];
    ghost var whole := RequiredRun(all, names, fields, path);
    var next := 0;
    assert names[0..] == names;
    while next < |names|
      invariant next <= |names| && context.errors == before + soFar && valid == (soFar == [])
      invariant Continues(all, whole, soFar, RequiredRun(all, names[next..], fields, path))
    {
      assert names[next..][1..] == names[next + 1..] && names[next..][0] == names[next];
      ghost var first := if names[next].Str? && Lookup(fields, names[next].s).None? then SchemaEvaluation.Fail(path, "required", names[next]) else OK;
      LoopStep(all, whole, soFar, first, RequiredRun(all, names[next + 1..], fields, path));
      soFar := soFar + first.errors;
      if names[next].Str? && Lookup(fields, names[next].s).None? {
        var failed := context.Fail(path, "required", names[next]);
        valid := failed && valid;
        if !context.allErrors { return; }
      }
      next := next + 1;
    }
  }

  method ValidateObject(env: Env, fuel: nat, schema: Json, fields: seq<Field>, path: Path, context: ValidationContext) returns (verdict: Verdict)
    requires schema.Obj?
    modifies context
    ensures Reports(ObjectRun(env, context.allErrors, fuel, schema, fields, path), old(context.errors), context.errors, verdict)
    decreases fuel, schema, 8, 0
  {
    hide RequiredKeyword, PropertiesRun;
    var valid := ValidateRequired(schema, fields, path, context);
    if !valid && !context.allErrors { return Valid(false); }
    if exists f | f in Children(schema, "patternProperties") :: !IsSchema(f.value) { return Threw; }
    verdict := ValidateProperties(env, fuel, schema, fields, path, context);
    if verdict.Valid? { verdict := Valid(verdict.ok && valid); }
  }

  method ValidateProperties(env: Env, fuel: nat, schema: Json, fields: seq<Field>, path: Path, context: ValidationContext) returns (verdict: Verdict)
    requires schema.Obj? && forall f | f in Children(schema, "patternProperties") :: IsSchema(f.value)
    modifies context
    ensures Reports(PropertiesRun(env, context.allErrors, fuel, schema, fields, path), old(context.errors), context.errors, verdict)
    decreases fuel, schema, 7
  {
    hide PropertyRun, PropertiesRun, Children, Continues;
    ghost var all, before, soFar := context.allErrors, context.errors, [];
    ghost var whole := PropertiesRun(env, all, fuel, schema, fields, path);
    var valid, next := true, 0;
    LoopEnds(all, whole, []);
    assert fields[0..] == fields;
    while next < |fields|
      invariant next <= |fields| && context.errors == before + soFar && valid == (soFar == [])
      invariant Continues(all, whole, soFar, PropertiesRun(env, all, fuel, schema, fields[next..], path))
    {
      PropertiesFrom(env, all, fuel, schema, fields, next, path);
      ghost var first := PropertyRun(env, all, fuel, schema, fields[next], path);
      LoopStep(all, whole, soFar, first, PropertiesRun(env, all, fuel, schema, fields[next + 1..], path));
      var property := ValidateProperty(env, fuel, schema, fields[next], path, context);
      soFar := soFar + first.errors;
      if property.Threw? { return Threw; }
      valid := property.ok && valid;
      if !valid && !context.allErrors { return Valid(false); }
      next := next + 1;
    }
    PropertiesFrom(env, all, fuel, schema, fields, next, path);
    LoopEnds(all, whole, soFar);
    return Valid(valid);
  }

  lemma PropertiesFrom(env: Env, all: bool, fuel: nat, schema: Json, fields: seq<Field>, next: nat, path: Path)
    requires schema.Obj? && (forall f | f in Children(schema, "patternProperties") :: IsSchema(f.value)) && next <= |fields|
    ensures PropertiesRun(env, all, fuel, schema, fields[next..], path) ==
            if next == |fields| then OK
            else Then(all, PropertyRun(env, all, fuel, schema, fields[next], path), PropertiesRun(env, all, fuel, schema, fields[next + 1..], path))
  {
    hide PropertyRun, Children;
    if next < |fields| { assert fields[next..][1..] == fields[next + 1..] && fields[next..][0] == fields[next]; }
  }

  lemma SubschemasSmaller(schema: Json, key: string)
    ensures OwnSchema(schema, key).Some? ==> IsSchema(OwnSchema(schema, key).value) && OwnSchema(schema, key).value < schema
    ensures forall f | f in Children(schema, "patternProperties") :: f.value < schema
  {
  }

  /** One turn of the property loop. */
  method ValidateProperty(env: Env, fuel: nat, schema: Json, field: Field, path: Path, context: ValidationContext) returns (verdict: Verdict)
    requires schema.Obj? && forall f | f in Children(schema, "patternProperties") :: IsSchema(f.value)
    modifies context
    ensures Reports(PropertyRun(env, context.allErrors, fuel, schema, field, path), old(context.errors), context.errors, verdict)
    decreases fuel, schema, 6
  {
    hide Eval, PatternsRun, AdditionalRun, Matched, OwnSchema, Children;
    SubschemasSmaller(schema, field.key);
    var own, patterns := OwnSchema(schema, field.key), Children(schema, "patternProperties");
    var valid, matched := true, own.Some?;
    if own.Some? {
      var mine := ValidateSchema(env, fuel, own.value, field.value, path + [Property(field.key)], context);
      if mine.Threw? || (!mine.ok && !context.allErrors) { return mine; }
      valid := mine.ok;
    }
    var others := ValidatePatterns(env, fuel, schema, patterns, field, path, context);
    if others.Threw? { return Threw; }
    valid := others.ok && valid;
    if !valid && !context.allErrors { return Valid(false); }
    if matched || Matched(env, patterns, field.key) { return Valid(valid); }
    verdict := ValidateAdditional(env, fuel, schema, field, path, context);
    if verdict.Valid? { verdict := Valid(verdict.ok && valid); }
  }

  ghost function MatchRun(env: Env, all: bool, fuel: nat, pattern: Field, field: Field, path: Path): Run
    requires IsSchema(pattern.value)
  {
    if env.matches(pattern.key, field.key) then Eval(env, all, fuel, pattern.value, field.value, path + [Property(field.key)]) else OK
  }

  /** The pattern loop has `next` patterns behind it. */
  ghost predicate PatternLoop(env: Env, all: bool, fuel: nat, schema: Json, patterns: seq<Field>, next: nat, field: Field, path: Path,
                              whole: Run, soFar: seq<SchemaError>)
  {
    && next <= |patterns| && Subschemas(schema, patterns[next..])
    && Continues(all, whole, soFar, PatternsRun(env, all, fuel, schema, patterns[next..], field, path))
  }

  lemma PatternsBegin(env: Env, all: bool, fuel: nat, schema: Json, patterns: seq<Field>, field: Field, path: Path)
    requires Subschemas(schema, patterns)
    ensures PatternLoop(env, all, fuel, schema, patterns, 0, field, path, PatternsRun(env, all, fuel, schema, patterns, field, path), [])
  {
    hide Eval, PatternsRun;
    assert patterns[0..] == patterns;
  }

  lemma PatternsEnd(env: Env, all: bool, fuel: nat, schema: Json, patterns: seq<Field>, field: Field, path: Path, whole: Run, soFar: seq<SchemaError>)
    requires PatternLoop(env, all, fuel, schema, patterns, |patterns|, field, path, whole, soFar)
    ensures whole == Run(soFar, false)
  {
    hide Eval;
  }

  lemma PatternsFrom(env: Env, all: bool, fuel: nat, schema: Json, patterns: seq<Field>, next: nat, field: Field, path: Path)
    requires next < |patterns| && Subschemas(schema, patterns[next..])
    ensures IsSchema(patterns[next].value) && patterns[next].value < schema && Subschemas(schema, patterns[next + 1..])
    ensures PatternsRun(env, all, fuel, schema, patterns[next..], field, path) ==
            Then(all, MatchRun(env, all, fuel, patterns[next], field, path),
                 PatternsRun(env, all, fuel, schema, patterns[next + 1..], field, path))
  {
    hide Eval;
    assert patterns[next..][1..] == patterns[next + 1..] && patterns[next..][0] == patterns[next];
    assert patterns[next] in patterns[next..];
    assert forall f | f in patterns[next + 1..] :: f in patterns[next..];
  }

  /** One turn of the pattern loop. */
  lemma PatternTurn(env: Env, all: bool, fuel: nat, schema: Json, patterns: seq<Field>, next: nat, field: Field, path: Path,
                    whole: Run, soFar: seq<SchemaError>)
    requires next < |patterns| && PatternLoop(env, all, fuel, schema, patterns, next, field, path, whole, soFar)
    ensures IsSchema(patterns[next].value) && patterns[next].value < schema
    ensures var first := MatchRun(env, all, fuel, patterns[next], field, path);
            if first.threw || (!all && first.errors != []) then whole == Run(soFar + first.errors, first.threw)
            else PatternLoop(env, all, fuel, schema, patterns, next + 1, field, path, whole, soFar + first.errors)
  {
    hide MatchRun, PatternsRun, Subschemas, Continues;
    PatternsFrom(env, all, fuel, schema, patterns, next, field, path);
    LoopStep(all, whole, soFar, MatchRun(env, all, fuel, patterns[next], field, path),
             PatternsRun(env, all, fuel, schema, patterns[next + 1..], field, path));
  }

  method ValidatePatterns(env: Env, fuel: nat, schema: Json, patterns: seq<Field>, field: Field, path: Path, context: ValidationContext)
    returns (verdict: Verdict)
    requires Subschemas(schema, patterns)
    modifies context
    ensures Reports(PatternsRun(env, context.allErrors, fuel, schema, patterns, field, path), old(context.errors), context.errors, verdict)
    decreases fuel, schema, 5
  {
    hide PatternLoop, PatternsRun, MatchRun, Subschemas;
    ghost var all, before, soFar := context.allErrors, context.errors, [];
    ghost var whole := PatternsRun(env, all, fuel, schema, patterns, field, path);
    var valid, next := true, 0;
    PatternsBegin(env, all, fuel, schema, patterns, field, path);
    while next < |patterns|
      invariant next <= |patterns| && context.errors == before + soFar && valid == (soFar == []) && (all || valid)
      invariant PatternLoop(env, all, fuel, schema, patterns, next, field, path, whole, soFar)
    {
      PatternTurn(env, all, fuel, schema, patterns, next, field, path, whole, soFar);
      var matched := ValidateMatch(env, fuel, schema, patterns[next], field, path, context);
      soFar := soFar + MatchRun(env, all, fuel, patterns[next], field, path).errors;
      if matched.Threw? { return Threw; }
      valid := matched.ok && valid;
      if !valid && !context.allErrors { return Valid(false); }
      next := next + 1;
    }
    PatternsEnd(env, all, fuel, schema, patterns, field, path, whole, soFar);
    return Valid(valid);
  }

  /** One pattern: a property it does not match passes. */
  method ValidateMatch(env: Env, fuel: nat, schema: Json, pattern: Field, field: Field, path: Path, context: ValidationContext) returns (verdict: Verdict)
    requires IsSchema(pattern.value) && pattern.value < schema
    modifies context
    ensures Reports(MatchRun(env, context.allErrors, fuel, pattern, field, path), old(context.errors), context.errors, verdict)
    decreases fuel, schema, 4
  {
    hide Eval;
    if !env.matches(pattern.key, field.key) { return Valid(true); }
    verdict := ValidateSchema(env, fuel, pattern.value, field.value, path + [Property(field.key)], context);
  }

  method ValidateAdditional(env: Env, fuel: nat, schema: Json, field: Field, path: Path, context: ValidationContext) returns (verdict: Verdict)
    modifies context
    ensures Reports(AdditionalRun(env, context.allErrors, fuel, schema, field, path), old(context.errors), context.errors, verdict)
    decreases fuel, schema, 4
  {
    hide Eval;
    var additional := Keyword(schema, "additionalProperties");
    if additional.None? || additional.value == Bool(true) { return Valid(true); }
    if additional.value == Bool(false) {
      var failed := context.Fail(path, "additionalProperties", Str(field.key));
      return Valid(failed);
    }
    if !additional.value.Obj? { return Valid(true); }
    verdict := ValidateSchema(env, fuel, additional.value, field.value, path + [Property(field.key)], context);
  }

  // ---------------------------------------------------------------- the compiled validator

  datatype Outcome = Accepted | Rejected(errors: seq<SchemaError>) | Thrown

  /** The function `compileSchemaValidator` returns, for either value of `allErrors`. If the schema is
    * grounded, or if collecting all errors does not throw for other reasons, both modes accept exactly
    * the conforming values; all errors are reported in the one mode, and the first of them in the other. */
  method Validate(env: Env, allErrors: bool, fuel: nat, value: Json) returns (outcome: Outcome)
    requires env.root.Obj? && Sane(env, env.root) && WellFormed(value)
    ensures var full := Eval(env, true, fuel, env.root, value, []);
            !full.threw || Grounded(env, fuel, Some(Depth(value)), env.root) ==>
              if Conforms(env, fuel, env.root, value) then outcome == Accepted
              else full.errors != [] && outcome == Rejected(if allErrors then full.errors else [full.errors[0]])
  {
    hide Eval, Conforms, Grounded;
    if Grounded(env, fuel, Some(Depth(value)), env.root) {
      GroundedDecides(env, fuel, Some(Depth(value)), env.root, value, [], fuel);
    }
    var context := new ValidationContext(allErrors);
    var verdict := ValidateSchema(env, fuel, env.root, value, [], context);
    EvalDecides(env, fuel, env.root, value, []);
    ModesAgree(env, fuel, env.root, value, []);
    if verdict.Threw? { return Thrown; }
    outcome := if verdict.ok then Accepted else Rejected(context.errors);
  }

  // ---------------------------------------------------------------- where the modes part

  const DANGLING := Obj([Field("$ref", Str("nowhere"))])
  const BRANCH := Obj([Field("required", Arr([Str("x")])), Field("additionalProperties", DANGLING)])
  const VALUE := Obj([Field("y", Null)])

  lemma BranchKeyword(name: string)
    ensures Keyword(BRANCH, name) == if name == "required" then Some(Arr([Str("x")]))
                                     else if name == "additionalProperties" then Some(DANGLING) else None
  {
    var rest := BRANCH.fields[1..];
    assert rest == [Field("additionalProperties", DANGLING)] && rest[1..] == [];
    assert Lookup(rest[1..], name) == None;
    assert Lookup(rest, name) == if name == "additionalProperties" then Some(DANGLING) else None;
  }

  lemma DanglingThrows(env: Env, all: bool, fuel: nat, path: Path)
    ensures Eval(env, all, fuel, DANGLING, Null, path) == THROW
  {
    assert DANGLING.fields[1..] == [];
    assert !("#/" <= "nowhere") by { assert "nowhere"[0] != "#/"[0]; }
    assert Resolve(env.root, "nowhere") == None;
    assert Keyword(DANGLING, "$ref") == Some(Str("nowhere"));
  }

  lemma BranchProperties(env: Env, all: bool, fuel: nat)
    ensures Children(BRANCH, "patternProperties") == []
    ensures PropertiesRun(env, all, fuel, BRANCH, VALUE.fields, []) == THROW
  {
    hide Eval;
    BranchKeyword("properties");
    BranchKeyword("patternProperties");
    BranchKeyword("additionalProperties");
    DanglingThrows(env, all, fuel, [] + [Property("y")]);
    assert AdditionalRun(env, all, fuel, BRANCH, VALUE.fields[0], []) == THROW;
    assert PropertyRun(env, all, fuel, BRANCH, VALUE.fields[0], []) == THROW;
  }

  lemma BranchRequired(all: bool)
    ensures RequiredKeyword(all, BRANCH, VALUE.fields, []) == SchemaEvaluation.Fail([], "required", Str("x"))
  {
    BranchKeyword("required");
    var names := [Str("x")];
    assert names[1..] == [] && RequiredRun(all, names[1..], VALUE.fields, []) == OK;
    assert VALUE.fields[1..] == [] && Lookup(VALUE.fields[1..], "x") == None;
    assert "y"[0] != "x"[0] && Lookup(VALUE.fields, "x") == None;
    assert RequiredRun(all, names, VALUE.fields, []) == SchemaEvaluation.Fail([], "required", Str("x"));
  }

  lemma BranchObject(env: Env, all: bool, fuel: nat)
    ensures KindRun(env, all, fuel, BRANCH, VALUE, []) ==
            Run([SchemaError([], "required", Str("x"))], all)
  {
    hide PropertiesRun, RequiredKeyword;
    BranchRequired(all);
    BranchProperties(env, all, fuel);
    assert ObjectRun(env, all, fuel, BRANCH, VALUE.fields, []) == Run([SchemaError([], "required", Str("x"))], all);
  }

  lemma BranchParts(env: Env, all: bool, fuel: nat)
    ensures Eval(env, all, fuel, BRANCH, VALUE, []) == Run([SchemaError([], "required", Str("x"))], all)
  {
    hide KindRun;
    BranchKeyword("$ref");
    BranchKeyword("anyOf");
    BranchKeyword("const");
    BranchKeyword("enum");
    BranchKeyword("type");
    BranchObject(env, all, fuel);
    assert AnyOfKeyword(env, all, fuel, BRANCH, VALUE, []) == OK;
    assert ConstRun(env, BRANCH, VALUE, []) == OK;
    assert SiblingsRun(env, all, fuel, BRANCH, VALUE, []) == Run([SchemaError([], "required", Str("x"))], all);
  }

  lemma OnlyKeyword(name: string, held: Json, other: string)
    ensures Keyword(Obj([Field(name, held)]), other) == if other == name then Some(held) else None
  {
    assert [Field(name, held)][1..] == [];
  }

  lemma NoConst(env: Env, schema: Json)
    requires Keyword(schema, "const") == None && Keyword(schema, "enum") == None
    ensures ConstRun(env, schema, VALUE, []) == OK
  {
  }

  lemma BareKind(env: Env, all: bool, fuel: nat, schema: Json)
    requires schema.Obj? && forall name | name != "anyOf" :: Keyword(schema, name) == None
    ensures KindRun(env, all, fuel, schema, VALUE, []) == OK
  {
    hide Keyword, Eval, StringRun, NumberRun, ArrayRun;
    assert VALUE.fields[1..] == [];
    assert PropertyRun(env, all, fuel, schema, VALUE.fields[0], []) == OK;
    assert PropertiesRun(env, all, fuel, schema, VALUE.fields, []) == OK;
    assert ObjectRun(env, all, fuel, schema, VALUE.fields, []) == OK;
  }

  /** Only a throw can make the modes differ, and it does: a branch that lacks a required property
    * before it reaches a dangling reference is dismissed by stopping early and throws otherwise. */
  lemma ModesPartOnThrow(env: Env, fuel: nat)
    ensures exists schema, value :: IsSchema(schema) && Eval(env, true, fuel, schema, value, []).threw && Eval(env, false, fuel, schema, value, []) == OK
  {
    hide KindRun, Keyword, ConstRun;
    var candidates := [BRANCH, Bool(true)];
    var schema := Obj([Field("anyOf", Arr(candidates))]);
    forall name ensures Keyword(schema, name) == if name == "anyOf" then Some(Arr(candidates)) else None {
      OnlyKeyword("anyOf", Arr(candidates), name);
    }
    BranchParts(env, true, fuel);
    BranchParts(env, false, fuel);
    assert candidates[0] in candidates && candidates[1] in candidates;
    assert candidates[1..] == [Bool(true)] && candidates[1..][0] == Bool(true);
    assert Keyword(schema, "anyOf").value < schema && candidates[1] < Arr(candidates) && candidates[0] < Arr(candidates);
    assert AnyOfRun(env, false, fuel, schema, candidates[1..], VALUE, []) == OK;
    assert AnyOfKeyword(env, true, fuel, schema, VALUE, []) == THROW;
    assert AnyOfKeyword(env, false, fuel, schema, VALUE, []) == OK;
    BareKind(env, false, fuel, schema);
    assert Eval(env, true, fuel, schema, VALUE, []).threw;
    NoConst(env, schema);
    assert SiblingsRun(env, false, fuel, schema, VALUE, []) == OK;
    assert Eval(env, false, fuel, schema, VALUE, []) == OK;
  }
}
