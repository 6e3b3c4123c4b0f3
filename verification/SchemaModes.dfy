/** The two ways of running one validation: stop at the first error, or collect them all. */
module SchemaModes {
  import opened Json
  import opened SchemaEvaluation
  import opened Wrappers

  /** Stopping at the first error reports that error and nothing else. */
  function First(run: Run): Run
    requires !run.threw
  {
    Run(if run.errors == [] then [] else [run.errors[0]], false)
  }

  /** If collecting every error ends without a throw, so does stopping early, with the first of them. */
  ghost predicate Agree(fast: Run, full: Run)
  {
    !full.threw ==> fast == First(full)
  }

  lemma AgreeThen(fast: Run, full: Run, fastRest: Run, fullRest: Run)
    requires Agree(fast, full) && Agree(fastRest, fullRest)
    ensures Agree(Then(false, fast, fastRest), Then(true, full, fullRest))
  {
    if !full.threw && full.errors != [] {
      assert (full.errors + fullRest.errors)[0] == full.errors[0];
    }
  }

  /** Both modes answer the same, and stopping early reports exactly the first error of the full
    * report: for every schema, value and bound on `$ref`. */
  lemma {:induction false} ModesAgree(env: Env, fuel: nat, schema: Json, value: Json, path: Path)
    requires IsSchema(schema)
    ensures Agree(Eval(env, false, fuel, schema, value, path), Eval(env, true, fuel, schema, value, path))
    decreases fuel, schema, 9
  {
    hide SiblingsRun;
    if schema.Obj? {
      var ref := Keyword(schema, "$ref");
      if ref.Some? && ref.value.Str? {
        var target := Resolve(env.root, ref.value.s);
        if target.Some? && fuel > 0 { ModesAgree(env, fuel - 1, target.value, value, path); }
      } else {
        SiblingsAgree(env, fuel, schema, value, path);
      }
    }
  }

  lemma SiblingsAgree(env: Env, fuel: nat, schema: Json, value: Json, path: Path)
    requires schema.Obj?
    ensures Agree(SiblingsRun(env, false, fuel, schema, value, path), SiblingsRun(env, true, fuel, schema, value, path))
    decreases fuel, schema, 8, 3
  {
    hide AnyOfKeyword, ConstRun, TypedRun, Agree, Then;
    AnyOfKeywordAgree(env, fuel, schema, value, path);
    TypedAgree(env, fuel, schema, value, path);
    AgreeSelf(ConstRun(env, schema, value, path));
    AgreeThen(ConstRun(env, schema, value, path), ConstRun(env, schema, value, path),
              TypedRun(env, false, fuel, schema, value, path), TypedRun(env, true, fuel, schema, value, path));
    AgreeThen(AnyOfKeyword(env, false, fuel, schema, value, path), AnyOfKeyword(env, true, fuel, schema, value, path),
              Then(false, ConstRun(env, schema, value, path), TypedRun(env, false, fuel, schema, value, path)),
              Then(true, ConstRun(env, schema, value, path), TypedRun(env, true, fuel, schema, value, path)));
  }

  /** A check with at most one error is the same in both modes. */
  lemma AgreeSelf(run: Run)
    requires |run.errors| <= 1
    ensures Agree(run, run)
  {
  }

  lemma TypedAgree(env: Env, fuel: nat, schema: Json, value: Json, path: Path)
    requires schema.Obj?
    ensures Agree(TypedRun(env, false, fuel, schema, value, path), TypedRun(env, true, fuel, schema, value, path))
    decreases fuel, schema, 8, 2
  {
    hide KindRun;
    KindsAgree(env, fuel, schema, value, path);
  }

  lemma KindsAgree(env: Env, fuel: nat, schema: Json, value: Json, path: Path)
    requires schema.Obj?
    ensures Agree(KindRun(env, false, fuel, schema, value, path), KindRun(env, true, fuel, schema, value, path))
    decreases fuel, schema, 8, 1
  {
    hide ArrayRun, ObjectRun, LimitRun;
    match value
    case Arr(items) => ArraysAgree(env, fuel, schema, items, path);
    case Obj(fields) => ObjectsAgree(env, fuel, schema, fields, path);
    case _ =>
  }

  lemma AnyOfKeywordAgree(env: Env, fuel: nat, schema: Json, value: Json, path: Path)
    requires schema.Obj?
    ensures Agree(AnyOfKeyword(env, false, fuel, schema, value, path), AnyOfKeyword(env, true, fuel, schema, value, path))
    decreases fuel, schema, 8, 0
  {
    match Keyword(schema, "anyOf")
    case Some(Arr(candidates)) => AnyOfAgree(env, fuel, schema, candidates, value, path);
    case _ =>
  }

  lemma {:induction false} AnyOfAgree(env: Env, fuel: nat, schema: Json, candidates: seq<Json>, value: Json, path: Path)
    requires forall c | c in candidates :: c < schema
    ensures Agree(AnyOfRun(env, false, fuel, schema, candidates, value, path), AnyOfRun(env, true, fuel, schema, candidates, value, path))
    decreases fuel, schema, 7, |candidates|
  {
    if candidates != [] && IsSchema(candidates[0]) {
      assert candidates[0] in candidates;
      assert forall c | c in candidates[1..] :: c in candidates;
      ModesAgree(env, fuel, candidates[0], value, path);
      AnyOfAgree(env, fuel, schema, candidates[1..], value, path);
    }
  }

  lemma ArraysAgree(env: Env, fuel: nat, schema: Json, items: seq<Json>, path: Path)
    requires schema.Obj?
    ensures Agree(ArrayRun(env, false, fuel, schema, items, path), ArrayRun(env, true, fuel, schema, items, path))
    decreases fuel, schema, 8, 0
  {
    var each := Keyword(schema, "items");
    if each.Some? && IsSchema(each.value) {
      ItemsAgree(env, fuel, each.value, items, 0, path);
      AgreeThen(SizeRun(env, false, schema, items, path), SizeRun(env, true, schema, items, path),
                ItemsRun(env, false, fuel, each.value, items, 0, path), ItemsRun(env, true, fuel, each.value, items, 0, path));
    }
  }

  lemma {:induction false} ItemsAgree(env: Env, fuel: nat, each: Json, items: seq<Json>, index: nat, path: Path)
    requires IsSchema(each) && index <= |items|
    ensures Agree(ItemsRun(env, false, fuel, each, items, index, path), ItemsRun(env, true, fuel, each, items, index, path))
    decreases fuel, each, 10, |items| - index
  {
    if index < |items| {
      ModesAgree(env, fuel, each, items[index], path + [Index(index)]);
      ItemsAgree(env, fuel, each, items, index + 1, path);
      AgreeThen(Eval(env, false, fuel, each, items[index], path + [Index(index)]), Eval(env, true, fuel, each, items[index], path + [Index(index)]),
                ItemsRun(env, false, fuel, each, items, index + 1, path), ItemsRun(env, true, fuel, each, items, index + 1, path));
    }
  }

  lemma {:induction false} RequiredAgree(required: seq<Json>, fields: seq<Field>, path: Path)
    ensures Agree(RequiredRun(false, required, fields, path), RequiredRun(true, required, fields, path))
  {
    if required != [] {
      RequiredAgree(required[1..], fields, path);
      var one := if required[0].Str? && Lookup(fields, required[0].s).None? then Fail(path, "required", required[0]) else OK;
      AgreeThen(one, one, RequiredRun(false, required[1..], fields, path), RequiredRun(true, required[1..], fields, path));
    }
  }

  lemma ObjectsAgree(env: Env, fuel: nat, schema: Json, fields: seq<Field>, path: Path)
    requires schema.Obj?
    ensures Agree(ObjectRun(env, false, fuel, schema, fields, path), ObjectRun(env, true, fuel, schema, fields, path))
    decreases fuel, schema, 8, 0
  {
    var required := Keyword(schema, "required");
    if required.Some? && required.value.Arr? { RequiredAgree(required.value.items, fields, path); }
    if forall f | f in Children(schema, "patternProperties") :: IsSchema(f.value) {
      PropertiesAgree(env, fuel, schema, fields, path);
      AgreeThen(RequiredKeyword(false, schema, fields, path), RequiredKeyword(true, schema, fields, path),
                PropertiesRun(env, false, fuel, schema, fields, path), PropertiesRun(env, true, fuel, schema, fields, path));
    }
  }

  lemma {:induction false} PropertiesAgree(env: Env, fuel: nat, schema: Json, fields: seq<Field>, path: Path)
    requires schema.Obj? && forall f | f in Children(schema, "patternProperties") :: IsSchema(f.value)
    ensures Agree(PropertiesRun(env, false, fuel, schema, fields, path), PropertiesRun(env, true, fuel, schema, fields, path))
    decreases fuel, schema, 7, |fields|
  {
    if fields != [] {
      PropertyAgrees(env, fuel, schema, fields[0], path);
      PropertiesAgree(env, fuel, schema, fields[1..], path);
      AgreeThen(PropertyRun(env, false, fuel, schema, fields[0], path), PropertyRun(env, true, fuel, schema, fields[0], path),
                PropertiesRun(env, false, fuel, schema, fields[1..], path), PropertiesRun(env, true, fuel, schema, fields[1..], path));
    }
  }

  lemma PropertyAgrees(env: Env, fuel: nat, schema: Json, field: Field, path: Path)
    requires schema.Obj? && forall f | f in Children(schema, "patternProperties") :: IsSchema(f.value)
    ensures Agree(PropertyRun(env, false, fuel, schema, field, path), PropertyRun(env, true, fuel, schema, field, path))
    decreases fuel, schema, 6
  {
    var own, patterns := OwnSchema(schema, field.key), Children(schema, "patternProperties");
    if own.Some? { ModesAgree(env, fuel, own.value, field.value, path + [Property(field.key)]); }
    PatternsAgree(env, fuel, schema, patterns, field, path);
    AdditionalAgrees(env, fuel, schema, field, path);
    hide Eval, PatternsRun, AdditionalRun;
    ghost var covered := own.Some? || Matched(env, patterns, field.key);
    var fastRest := if covered then OK else AdditionalRun(env, false, fuel, schema, field, path);
    var fullRest := if covered then OK else AdditionalRun(env, true, fuel, schema, field, path);
    AgreeThen(PatternsRun(env, false, fuel, schema, patterns, field, path), PatternsRun(env, true, fuel, schema, patterns, field, path), fastRest, fullRest);
    AgreeThen(if own.Some? then Eval(env, false, fuel, own.value, field.value, path + [Property(field.key)]) else OK,
              if own.Some? then Eval(env, true, fuel, own.value, field.value, path + [Property(field.key)]) else OK,
              Then(false, PatternsRun(env, false, fuel, schema, patterns, field, path), fastRest),
              Then(true, PatternsRun(env, true, fuel, schema, patterns, field, path), fullRest));
  }

  lemma {:induction false} PatternsAgree(env: Env, fuel: nat, schema: Json, patterns: seq<Field>, field: Field, path: Path)
    requires forall f | f in patterns :: f.value < schema && IsSchema(f.value)
    ensures Agree(PatternsRun(env, false, fuel, schema, patterns, field, path), PatternsRun(env, true, fuel, schema, patterns, field, path))
    decreases fuel, schema, 5, |patterns|
  {
    if patterns != [] {
      assert patterns[0] in patterns;
      PatternsAgree(env, fuel, schema, patterns[1..], field, path);
      if env.matches(patterns[0].key, field.key) {
        ModesAgree(env, fuel, patterns[0].value, field.value, path + [Property(field.key)]);
        AgreeThen(Eval(env, false, fuel, patterns[0].value, field.value, path + [Property(field.key)]),
                  Eval(env, true, fuel, patterns[0].value, field.value, path + [Property(field.key)]),
                  PatternsRun(env, false, fuel, schema, patterns[1..], field, path), PatternsRun(env, true, fuel, schema, patterns[1..], field, path));
      }
    }
  }

  lemma AdditionalAgrees(env: Env, fuel: nat, schema: Json, field: Field, path: Path)
    ensures Agree(AdditionalRun(env, false, fuel, schema, field, path), AdditionalRun(env, true, fuel, schema, field, path))
    decreases fuel, schema, 4
  {
    match Keyword(schema, "additionalProperties")
    case Some(s) => if s.Obj? { ModesAgree(env, fuel, s, field.value, path + [Property(field.key)]); }
    case None =>
  }
}
