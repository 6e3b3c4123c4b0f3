/** The stronger schema as the validator runs it: src/config-loader.ts, lines 225-261. The complete
  * validator and the plain one both collect all errors; what passes the one passes the other. */
module StrengthenedRuns {
  import opened Json
  import opened SchemaConformance
  import opened SchemaEvaluation
  import opened SchemaStrengthening
  import opened StableJsonCode
  import opened Wrappers

  /** Both validators are given well-formed schemas, and the stronger one strengthens. */
  ghost predicate Comparable(env: Env)
  {
    env.root.Obj? && Suitable(env.root) && NumberText(env.show) && WellFormed(env.root) && WellFormed(Strengthen(env.root))
  }

  /** A run that does not throw under the stronger schema does not throw under the one it stands for. */
  ghost predicate Safer(stronger: Run, run: Run)
  {
    !stronger.threw ==> !run.threw
  }

  lemma Roots(env: Env)
    requires Comparable(env)
    ensures Strengthened(env).matches == env.matches && Strengthened(env).show == env.show && Strengthened(env).root == Strengthen(env.root)
  {
    hide Strengthen;
  }

  lemma {:induction false} SchemaSafer(env: Env, fuel: nat, stronger: Json, schema: Json, value: Json, path: Path)
    requires env.root.Obj? && Comparable(env) && IsSchema(schema) && IsSchema(stronger) && StandsFor(stronger, schema)
    requires WellFormed(schema) && WellFormed(value)
    ensures Safer(Eval(Strengthened(env), true, fuel, stronger, value, path), Eval(env, true, fuel, schema, value, path))
    decreases fuel, schema, 10
  {
    hide Keyword, StandsFor, Comparable, Resolve, SiblingsRun, WellFormed, Strengthened;
    if schema.Obj? && stronger.Obj? {
      KeywordStandsFor(stronger, schema, "$ref");
      var ref := Keyword(schema, "$ref");
      if ref.Some? && ref.value.Str? {
        TargetsStandFor(env, stronger, schema, ref.value.s);
        var there, here := Resolve(Strengthened(env).root, ref.value.s), Resolve(env.root, ref.value.s);
        if there.Some? && fuel > 0 { SchemaSafer(env, fuel - 1, there.value, here.value, value, path); }
      } else {
        SiblingsSafer(env, fuel, stronger, schema, value, path);
      }
    } else {
      BothBoolean(stronger, schema);
    }
  }

  lemma BothBoolean(stronger: Json, schema: Json)
    requires StandsFor(stronger, schema) && IsSchema(schema) && IsSchema(stronger) && !(schema.Obj? && stronger.Obj?)
    ensures stronger == schema && schema.Bool?
  {
  }

  lemma TargetsStandFor(env: Env, stronger: Json, schema: Json, reference: string)
    requires env.root.Obj? && Comparable(env) && StandsFor(stronger, schema) && Keyword(schema, "$ref") == Some(Str(reference))
    ensures var there, here := Resolve(Strengthened(env).root, reference), Resolve(env.root, reference);
            there.Some? ==> here.Some? && StandsFor(there.value, here.value) && WellFormed(here.value)
  {
    hide Strengthen, RequireOwn, ReferencesToSchemas, WellFormed, NumberText;
    LookupReferences(schema, "$ref");
    ResolveStandsFor(env.root, reference);
    ResolveWellFormed(env.root, reference);
  }

  lemma {:induction false} SiblingsSafer(env: Env, fuel: nat, stronger: Json, schema: Json, value: Json, path: Path)
    requires env.root.Obj? && Comparable(env) && schema.Obj? && stronger.Obj? && StandsFor(stronger, schema)
    requires WellFormed(schema) && WellFormed(value)
    ensures Safer(SiblingsRun(Strengthened(env), true, fuel, stronger, value, path), SiblingsRun(env, true, fuel, schema, value, path))
    decreases fuel, schema, 9
  {
    hide Keyword, StandsFor, Comparable, ConstRun, KindRun, AnyOfRun, WellFormed, Strengthened;
    KeywordStandsFor(stronger, schema, "anyOf");
    KeywordStandsFor(stronger, schema, "type");
    KeywordWellFormed(schema, "anyOf");
    var anyOf := Keyword(schema, "anyOf");
    if anyOf.Some? && anyOf.value.Arr? { CandidatesSafer(env, fuel, stronger, schema, anyOf.value, value, path); }
    KindSafer(env, fuel, stronger, schema, value, path);
  }

  lemma {:induction false} CandidatesSafer(env: Env, fuel: nat, stronger: Json, schema: Json, list: Json, value: Json, path: Path)
    requires env.root.Obj? && Comparable(env) && list.Arr? && StandsFor(list, list) && WellFormed(list) && WellFormed(value)
    requires list < schema && forall c | c in list.items :: c < schema && c < stronger
    ensures Safer(AnyOfRun(Strengthened(env), true, fuel, stronger, list.items, value, path), AnyOfRun(env, true, fuel, schema, list.items, value, path))
    decreases fuel, schema, 8
  {
    hide StandsFor, Comparable, AnyOfRun, WellFormed, Strengthened;
    forall c | c in list.items ensures StandsFor(c, c) && WellFormed(c) {
      ItemStandsFor(list, c);
      ItemWellFormed(list, c);
    }
    AnyOfSafer(env, fuel, stronger, schema, list.items, value, path);
  }

  lemma {:induction false} ItemWellFormed(list: Json, item: Json)
    requires list.Arr? && WellFormed(list) && item in list.items
    ensures WellFormed(item)
  {
    var i :| 0 <= i < |list.items| && list.items[i] == item;
  }

  /** A candidate the stronger root accepts is accepted by the original, so that one stops no later. */
  lemma {:induction false} AnyOfSafer(env: Env, fuel: nat, stronger: Json, schema: Json, candidates: seq<Json>, value: Json, path: Path)
    requires env.root.Obj? && Comparable(env) && WellFormed(value)
    requires forall c | c in candidates :: c < schema && c < stronger && StandsFor(c, c) && WellFormed(c)
    ensures Safer(AnyOfRun(Strengthened(env), true, fuel, stronger, candidates, value, path), AnyOfRun(env, true, fuel, schema, candidates, value, path))
    decreases fuel, schema, 7, |candidates|
  {
    hide StandsFor, Comparable, Eval, WellFormed, Strengthened;
    if candidates != [] && IsSchema(candidates[0]) {
      var c := candidates[0];
      assert c in candidates && forall d | d in candidates[1..] :: d in candidates;
      SchemaSafer(env, fuel, c, c, value, path);
      CandidatePasses(env, fuel, c, value, path);
      AnyOfSafer(env, fuel, stronger, schema, candidates[1..], value, path);
    }
  }

  lemma {:induction false} CandidatePasses(env: Env, fuel: nat, c: Json, value: Json, path: Path)
    requires env.root.Obj? && Comparable(env) && IsSchema(c) && StandsFor(c, c) && WellFormed(c) && WellFormed(value)
    ensures var there, here := Eval(Strengthened(env), true, fuel, c, value, path), Eval(env, true, fuel, c, value, path);
            !there.threw && !here.threw && there.errors == [] ==> here.errors == []
  {
    hide Eval, Conforms, StandsFor, WellFormed, NumberText, Suitable, Strengthen;
    EvalDecides(Strengthened(env), fuel, c, value, path);
    EvalDecides(env, fuel, c, value, path);
    ConformsFollows(env, fuel, c, c, value);
  }

  lemma {:induction false} KindSafer(env: Env, fuel: nat, stronger: Json, schema: Json, value: Json, path: Path)
    requires env.root.Obj? && Comparable(env) && schema.Obj? && stronger.Obj? && StandsFor(stronger, schema)
    requires WellFormed(schema) && WellFormed(value)
    ensures Safer(KindRun(Strengthened(env), true, fuel, stronger, value, path), KindRun(env, true, fuel, schema, value, path))
    decreases fuel, schema, 7
  {
    hide StandsFor, Comparable, ArrayRun, ObjectRun, LimitRun, Less, Count, Units, Strengthened;
    match value
    case Arr(items) => ArraySafer(env, fuel, stronger, schema, items, path);
    case Obj(fields) => ObjectSafer(env, fuel, stronger, schema, fields, path);
    case _ =>
  }

  lemma {:induction false} ArraySafer(env: Env, fuel: nat, stronger: Json, schema: Json, items: seq<Json>, path: Path)
    requires env.root.Obj? && Comparable(env) && schema.Obj? && stronger.Obj? && StandsFor(stronger, schema)
    requires WellFormed(schema) && forall i | 0 <= i < |items| :: WellFormed(items[i])
    ensures Safer(ArrayRun(Strengthened(env), true, fuel, stronger, items, path), ArrayRun(env, true, fuel, schema, items, path))
    decreases fuel, schema, 6
  {
    hide Keyword, StandsFor, Comparable, SizeRun, ItemsRun, WellFormed, Strengthened;
    KeywordStandsFor(stronger, schema, "items");
    KeywordWellFormed(schema, "items");
    SizeSafe(env, schema, items, path);
    var each := Keyword(schema, "items");
    if each.Some? && IsSchema(each.value) { ItemsSafer(env, fuel, each.value, items, 0, path); }
  }

  lemma SizeSafe(env: Env, schema: Json, items: seq<Json>, path: Path)
    ensures !SizeRun(env, true, schema, items, path).threw
  {
    hide LimitRun, HasDuplicates, Less, Count;
  }

  lemma {:induction false} ItemsSafer(env: Env, fuel: nat, each: Json, items: seq<Json>, index: nat, path: Path)
    requires env.root.Obj? && Comparable(env) && IsSchema(each) && index <= |items| && StandsFor(each, each)
    requires WellFormed(each) && forall i | 0 <= i < |items| :: WellFormed(items[i])
    ensures Safer(ItemsRun(Strengthened(env), true, fuel, each, items, index, path), ItemsRun(env, true, fuel, each, items, index, path))
    decreases fuel, each, 11, |items| - index
  {
    hide StandsFor, Comparable, Eval, WellFormed, Strengthened;
    if index < |items| {
      SchemaSafer(env, fuel, each, each, items[index], path + [Index(index)]);
      ItemsSafer(env, fuel, each, items, index + 1, path);
    }
  }

  lemma {:induction false} ObjectSafer(env: Env, fuel: nat, stronger: Json, schema: Json, fields: seq<Field>, path: Path)
    requires env.root.Obj? && Comparable(env) && schema.Obj? && stronger.Obj? && StandsFor(stronger, schema)
    requires WellFormed(schema) && forall i | 0 <= i < |fields| :: WellFormed(fields[i].value)
    ensures Safer(ObjectRun(Strengthened(env), true, fuel, stronger, fields, path), ObjectRun(env, true, fuel, schema, fields, path))
    decreases fuel, schema, 6
  {
    hide Children, StandsFor, Comparable, RequiredRun, PropertiesRun, WellFormed, Strengthened;
    KeywordStandsFor(stronger, schema, "patternProperties");
    var required := Keyword(schema, "required");
    if required.Some? && required.value.Arr? { RequiredDecides(required.value.items, fields, path); }
    if forall f | f in Children(schema, "patternProperties") :: IsSchema(f.value) {
      PropertiesSafer(env, fuel, stronger, schema, fields, path);
    }
  }

  lemma {:induction false} PropertiesSafer(env: Env, fuel: nat, stronger: Json, schema: Json, fields: seq<Field>, path: Path)
    requires env.root.Obj? && Comparable(env) && schema.Obj? && stronger.Obj? && StandsFor(stronger, schema)
    requires WellFormed(schema) && forall i | 0 <= i < |fields| :: WellFormed(fields[i].value)
    requires forall f | f in Children(schema, "patternProperties") :: IsSchema(f.value)
    requires forall f | f in Children(stronger, "patternProperties") :: IsSchema(f.value)
    ensures Safer(PropertiesRun(Strengthened(env), true, fuel, stronger, fields, path), PropertiesRun(env, true, fuel, schema, fields, path))
    decreases fuel, schema, 5, |fields|
  {
    hide Children, StandsFor, Comparable, PropertyRun, WellFormed, Strengthened;
    if fields != [] {
      PropertySafer(env, fuel, stronger, schema, fields[0], path);
      PropertiesSafer(env, fuel, stronger, schema, fields[1..], path);
    }
  }

  lemma {:induction false} PropertySafer(env: Env, fuel: nat, stronger: Json, schema: Json, field: Field, path: Path)
    requires env.root.Obj? && Comparable(env) && schema.Obj? && stronger.Obj? && StandsFor(stronger, schema)
    requires WellFormed(schema) && WellFormed(field.value)
    requires forall f | f in Children(schema, "patternProperties") :: IsSchema(f.value)
    requires forall f | f in Children(stronger, "patternProperties") :: IsSchema(f.value)
    ensures Safer(PropertyRun(Strengthened(env), true, fuel, stronger, field, path), PropertyRun(env, true, fuel, schema, field, path))
    decreases fuel, schema, 4
  {
    hide Keyword, Children, OwnSchema, StandsFor, Comparable, Eval, PatternsRun, AdditionalRun, WellFormed, Strengthened;
    KeywordStandsFor(stronger, schema, "patternProperties");
    OwnStandsFor(stronger, schema, field.key);
    OwnWellFormed(schema, field.key);
    Roots(env);
    var own, theirs := OwnSchema(schema, field.key), OwnSchema(stronger, field.key);
    if own.Some? { SchemaSafer(env, fuel, theirs.value, own.value, field.value, path + [Property(field.key)]); }
    var patterns := Children(schema, "patternProperties");
    forall f | f in patterns ensures WellFormed(f.value) { ChildWellFormed(schema, "patternProperties", f); }
    PatternsSafer(env, fuel, stronger, schema, patterns, field, path);
    AdditionalSafer(env, fuel, stronger, schema, field, path);
  }

  lemma {:induction false} OwnWellFormed(schema: Json, key: string)
    requires WellFormed(schema)
    ensures var own := OwnSchema(schema, key); own.Some? ==> WellFormed(own.value)
  {
    hide Keyword;
    var properties := Keyword(schema, "properties");
    KeywordWellFormed(schema, "properties");
    if properties.Some? && properties.value.Obj? { KeywordWellFormed(properties.value, key); PropertyKeyword(properties.value, key); }
  }

  lemma PropertyKeyword(v: Json, key: string)
    requires v.Obj?
    ensures Keyword(v, key) == Lookup(v.fields, key)
  {
  }

  lemma {:induction false} PatternsSafer(env: Env, fuel: nat, stronger: Json, schema: Json, patterns: seq<Field>, field: Field, path: Path)
    requires env.root.Obj? && Comparable(env) && WellFormed(field.value)
    requires forall f | f in patterns :: f.value < schema && f.value < stronger && IsSchema(f.value) && StandsFor(f.value, f.value) && WellFormed(f.value)
    ensures Safer(PatternsRun(Strengthened(env), true, fuel, stronger, patterns, field, path), PatternsRun(env, true, fuel, schema, patterns, field, path))
    decreases fuel, schema, 3, |patterns|
  {
    hide StandsFor, Comparable, Eval, WellFormed, Strengthened;
    Roots(env);
    if patterns != [] {
      assert patterns[0] in patterns && forall f | f in patterns[1..] :: f in patterns;
      PatternsSafer(env, fuel, stronger, schema, patterns[1..], field, path);
      SchemaSafer(env, fuel, patterns[0].value, patterns[0].value, field.value, path + [Property(field.key)]);
    }
  }

  lemma {:induction false} AdditionalSafer(env: Env, fuel: nat, stronger: Json, schema: Json, field: Field, path: Path)
    requires env.root.Obj? && Comparable(env) && schema.Obj? && stronger.Obj? && StandsFor(stronger, schema)
    requires WellFormed(schema) && WellFormed(field.value)
    ensures Safer(AdditionalRun(Strengthened(env), true, fuel, stronger, field, path), AdditionalRun(env, true, fuel, schema, field, path))
    decreases fuel, schema, 3
  {
    hide Keyword, StandsFor, Comparable, Eval, WellFormed, Strengthened;
    KeywordStandsFor(stronger, schema, "additionalProperties");
    KeywordWellFormed(schema, "additionalProperties");
    var additional := Keyword(schema, "additionalProperties");
    if additional.Some? && additional.value.Obj? {
      SchemaSafer(env, fuel, additional.value, additional.value, field.value, path + [Property(field.key)]);
    }
  }

  /** A value that passes the stronger validator passes the original one. */
  lemma {:induction false} PassingFollows(env: Env, fuel: nat, value: Json)
    requires Suitable(env.root) && Sane(env, env.root) && WellFormed(value)
    requires Eval(Strengthened(env), true, fuel, Strengthen(env.root), value, []) == OK
    ensures Eval(env, true, fuel, env.root, value, []) == OK
  {
    hide Eval, Conforms, Strengthen, NumberText, RequireOwn, ReferencesToSchemas;
    StrengthenWellFormed(env.root);
    SchemaSafer(env, fuel, Strengthen(env.root), env.root, value, []);
    EvalDecides(Strengthened(env), fuel, Strengthen(env.root), value, []);
    EvalDecides(env, fuel, env.root, value, []);
    StrengtheningIsSound(env, fuel, value);
  }
}
