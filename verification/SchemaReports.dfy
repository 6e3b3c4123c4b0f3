/** What is in a report, said without reference to how it is found: a full report lists exactly the true
  * complaints about a value, each with its place, its keyword and what the schema holds under it, in the
  * order of the keywords and of the value's parts. src/schema-validator.ts, lines 103-273. */
module SchemaReports {
  import opened Json
  import opened SchemaConformance
  import opened SchemaEvaluation
  import opened StableJson
  import opened StableJsonCode
  import opened Wrappers

  // ---------------------------------------------------------------- reading a schema

  /** With distinct keys, a keyword is the property of that name. */
  lemma KeywordFinds(schema: Json, name: string, held: Json)
    requires WellFormed(schema)
    ensures Keyword(schema, name) == Some(held) <==> schema.Obj? && Field(name, held) in schema.fields
  {
    if schema.Obj? && Field(name, held) in schema.fields {
      var i :| 0 <= i < |schema.fields| && schema.fields[i] == Field(name, held);
      LookupFinds(schema.fields, i);
    }
  }

  /** The subschemas of a keyword are the properties of the object it holds. */
  lemma ChildrenFind(schema: Json, name: string, f: Field)
    ensures f in Children(schema, name) <==>
            Keyword(schema, name).Some? && Keyword(schema, name).value.Obj? && f in Keyword(schema, name).value.fields
  {
    hide Keyword;
  }

  /** A property's own schema is the one `properties` holds under its name, if that is a schema. */
  lemma OwnSchemaFinds(schema: Json, key: string, s: Json)
    requires WellFormed(schema)
    ensures OwnSchema(schema, key) == Some(s) <==> Field(key, s) in Children(schema, "properties") && (s.Bool? || s.Obj?)
  {
    hide Lookup;
    KeywordWellFormed(schema, "properties");
    if Keyword(schema, "properties").Some? { KeywordFinds(Keyword(schema, "properties").value, key, s); }
  }

  /** Numbers are in order, between the infinities. */
  lemma LessIsOrder(a: Number, b: Number)
    ensures a.Finite? && b.Finite? ==> (Less(a, b) <==> a.units < b.units)
    ensures !a.Finite? && !b.Finite? ==> (Less(a, b) <==> a.NegInfinity? && b.PosInfinity?)
    ensures a.Finite? != b.Finite? ==> (Less(a, b) <==> a.NegInfinity? || b.PosInfinity?)
  {
  }

  // ---------------------------------------------------------------- complaints

  ghost predicate Limits(schema: Json, keyword: string, detail: Json)
  {
    Keyword(schema, keyword) == Some(detail) && detail.Num?
  }

  /** Neither `properties` nor a pattern has anything to say of the name. */
  ghost predicate Unclaimed(env: Env, schema: Json, key: string)
  {
    OwnSchema(schema, key).None? && forall f | f in Children(schema, "patternProperties") :: !env.matches(f.key, key)
  }

  /** A keyword for the kind of the value is broken, by the value as a whole. */
  ghost predicate KindComplaint(env: Env, schema: Json, value: Json, keyword: string, detail: Json)
  {
    match value
    case Str(s) =>
      || (keyword == "minLength" && Limits(schema, keyword, detail) && Less(Count(Length(s)), detail.n))
      || (keyword == "maxLength" && Limits(schema, keyword, detail) && Less(detail.n, Count(Length(s))))
      || (keyword == "pattern" && Keyword(schema, keyword) == Some(detail) && detail.Str? && !env.matches(detail.s, s))
    case Num(n) =>
      || (keyword == "minimum" && Limits(schema, keyword, detail) && Less(n, detail.n))
      || (keyword == "exclusiveMinimum" && Limits(schema, keyword, detail) && !Less(detail.n, n))
      || (keyword == "maximum" && Limits(schema, keyword, detail) && Less(detail.n, n))
    case Arr(items) =>
      || (keyword == "minItems" && Limits(schema, keyword, detail) && Less(Count(|items|), detail.n))
      || (keyword == "maxItems" && Limits(schema, keyword, detail) && Less(detail.n, Count(|items|)))
      || (keyword == "uniqueItems" && Keyword(schema, keyword) == Some(Bool(true)) && detail == Null && !AllDifferent(items))
    case Obj(fields) => RequiredComplaint(schema, fields, keyword, detail) || ExtraComplaint(env, schema, fields, keyword, detail)
    case _ => false
  }

  ghost predicate RequiredComplaint(schema: Json, fields: seq<Field>, keyword: string, detail: Json)
  {
    && keyword == "required" && Keyword(schema, keyword).Some? && Keyword(schema, keyword).value.Arr?
    && detail in Keyword(schema, keyword).value.items && Missing(fields, detail)
  }

  ghost predicate Missing(fields: seq<Field>, name: Json) { name.Str? && forall f | f in fields :: f.key != name.s }

  ghost predicate ExtraComplaint(env: Env, schema: Json, fields: seq<Field>, keyword: string, detail: Json)
  {
    exists f | f in fields :: ExtraProperty(env, schema, f, keyword, detail)
  }

  ghost predicate ExtraProperty(env: Env, schema: Json, f: Field, keyword: string, detail: Json)
  {
    keyword == "additionalProperties" && Keyword(schema, keyword) == Some(Bool(false)) && detail == Str(f.key) && Unclaimed(env, schema, f.key)
  }

  /** At most one of `const` and `enum` is reported. */
  ghost predicate ConstComplaint(schema: Json, value: Json, keyword: string, detail: Json)
  {
    || (keyword == "const" && Keyword(schema, keyword) == Some(detail) && !Same(value, detail))
    || (EnumComplaint(schema, value, keyword, detail) && (Keyword(schema, "const").Some? ==> Same(value, Keyword(schema, "const").value)))
  }

  ghost predicate EnumComplaint(schema: Json, value: Json, keyword: string, detail: Json)
  {
    keyword == "enum" && Keyword(schema, keyword) == Some(detail) && detail.Arr? && forall o | o in detail.items :: !Same(value, o)
  }

  /** A complaint about the value itself. Where the type is wrong, nothing is said of its kind. */
  ghost predicate OwnComplaint(env: Env, fuel: nat, schema: Json, value: Json, keyword: string, detail: Json)
    requires schema.Obj?
  {
    || (keyword == "anyOf" && detail == Null && !AnyOfConforms(env, fuel, schema, value))
    || ConstComplaint(schema, value, keyword, detail)
    || (keyword == "type" && Keyword(schema, keyword) == Some(detail) && !HasType(detail, value))
    || (TypeConforms(schema, value) && KindComplaint(env, schema, value, keyword, detail))
  }

  /** The complaint at a place inside a value, or at the value itself, is a true one. */
  ghost predicate Complaint(env: Env, fuel: nat, schema: Json, value: Json, at: Path, keyword: string, detail: Json)
    requires IsSchema(schema)
    decreases fuel, schema, 3
  {
    if schema.Bool? then !schema.b && at == [] && keyword == "false schema" && detail == Null
    else match Keyword(schema, "$ref")
      case Some(Str(reference)) =>
        var target := Resolve(env.root, reference);
        target.Some? && fuel > 0 && Complaint(env, fuel - 1, target.value, value, at, keyword, detail)
      case _ =>
        || (at == [] && OwnComplaint(env, fuel, schema, value, keyword, detail))
        || (TypeConforms(schema, value) && PartComplaint(env, fuel, schema, value, at, keyword, detail))
  }

  /** A true complaint of a subschema about an item or a property. */
  ghost predicate PartComplaint(env: Env, fuel: nat, schema: Json, value: Json, at: Path, keyword: string, detail: Json)
    requires schema.Obj?
    decreases fuel, schema, 2
  {
    match value
    case Arr(items) =>
      var each := Keyword(schema, "items");
      each.Some? && IsSchema(each.value) && exists i | 0 <= i < |items| :: [Index(i)] <= at && Complaint(env, fuel, each.value, items[i], at[1..], keyword, detail)
    case Obj(fields) => exists f | f in fields :: PropertyComplaint(env, fuel, schema, f, at, keyword, detail)
    case _ => false
  }

  /** Of its own schema, of the schema of a pattern its name matches, or of that for the rest. */
  ghost predicate PropertyComplaint(env: Env, fuel: nat, schema: Json, f: Field, at: Path, keyword: string, detail: Json)
    requires schema.Obj?
    decreases fuel, schema, 1
  {
    var own, rest := OwnSchema(schema, f.key), Keyword(schema, "additionalProperties");
    && [Property(f.key)] <= at
    && (|| (own.Some? && Complaint(env, fuel, own.value, f.value, at[1..], keyword, detail))
        || PatternComplaint(env, fuel, schema, Children(schema, "patternProperties"), f, at, keyword, detail)
        || (Unclaimed(env, schema, f.key) && rest.Some? && rest.value.Obj? && Complaint(env, fuel, rest.value, f.value, at[1..], keyword, detail)))
  }

  ghost predicate PatternComplaint(env: Env, fuel: nat, schema: Json, patterns: seq<Field>, f: Field, at: Path, keyword: string, detail: Json)
    requires at != [] && forall p | p in patterns :: p.value < schema
    decreases fuel, schema, 0
  {
    exists p | p in patterns :: env.matches(p.key, f.key) && IsSchema(p.value) && Complaint(env, fuel, p.value, f.value, at[1..], keyword, detail)
  }

  // ---------------------------------------------------------------- a full report lists exactly the complaints

  /** In a report that did not throw, error `e` is listed exactly when `p` holds. */
  ghost predicate Lists(run: Run, e: SchemaError, p: bool)
  {
    !run.threw ==> (e in run.errors <==> p)
  }

  lemma ThenLists(first: Run, rest: Run, e: SchemaError, p: bool, q: bool)
    requires Lists(first, e, p) && Lists(rest, e, q)
    ensures Lists(Then(true, first, rest), e, p || q)
  {
  }

  /** Where the error is, relative to `path`. */
  function Rest(path: Path, e: SchemaError): Path
    requires path <= e.path
  {
    e.path[|path|..]
  }

  lemma LimitLists(schema: Json, name: string, breaks: Number -> bool, path: Path, e: SchemaError)
    ensures Lists(LimitRun(schema, name, breaks, path), e,
                  e.path == path && e.keyword == name && Limits(schema, name, e.detail) && breaks(e.detail.n))
  {
    hide Keyword;
  }

  lemma StringLists(env: Env, schema: Json, s: string, path: Path, e: SchemaError)
    ensures Lists(StringRun(env, true, schema, s, path), e, e.path == path && KindComplaint(env, schema, Str(s), e.keyword, e.detail))
  {
    hide Keyword, Units, Length, Less, Count, LimitRun;
    UnitsAreLength(s);
    var shorter, longer := limit => Less(Count(Units(s)), limit), limit => Less(limit, Count(Units(s)));
    LimitLists(schema, "minLength", shorter, path, e);
    LimitLists(schema, "maxLength", longer, path, e);
  }

  lemma NumberLists(schema: Json, n: Number, path: Path, e: SchemaError, env: Env)
    ensures Lists(NumberRun(true, schema, n, path), e, e.path == path && KindComplaint(env, schema, Num(n), e.keyword, e.detail))
  {
    hide Keyword, Less, LimitRun;
    LimitLists(schema, "minimum", limit => Less(n, limit), path, e);
    LimitLists(schema, "exclusiveMinimum", limit => !Less(limit, n), path, e);
    LimitLists(schema, "maximum", limit => Less(limit, n), path, e);
  }

  lemma SizeLists(env: Env, schema: Json, items: seq<Json>, path: Path, e: SchemaError)
    requires NumberText(env.show) && forall i | 0 <= i < |items| :: WellFormed(items[i])
    ensures Lists(SizeRun(env, true, schema, items, path), e, e.path == path && KindComplaint(env, schema, Arr(items), e.keyword, e.detail))
  {
    hide Keyword, Less, Count, LimitRun, NumberText, AllDifferent, HasDuplicates, WellFormed;
    DuplicatesDecided(env.show, items);
    LimitLists(schema, "minItems", limit => Less(Count(|items|), limit), path, e);
    LimitLists(schema, "maxItems", limit => Less(limit, Count(|items|)), path, e);
  }

  lemma {:induction false} RequiredLists(required: seq<Json>, fields: seq<Field>, path: Path, e: SchemaError)
    ensures Lists(RequiredRun(true, required, fields, path), e, e.path == path && e.keyword == "required" && e.detail in required && Missing(fields, e.detail))
  {
    if required != [] {
      RequiredLists(required[1..], fields, path, e);
      assert e.detail in required <==> e.detail == required[0] || e.detail in required[1..];
      assert required[0].Str? ==> (Lookup(fields, required[0].s).None? <==> Missing(fields, required[0]));
    }
  }

  lemma RequiredKeywordLists(schema: Json, fields: seq<Field>, path: Path, e: SchemaError)
    ensures Lists(RequiredKeyword(true, schema, fields, path), e, e.path == path && RequiredComplaint(schema, fields, e.keyword, e.detail))
  {
    hide Keyword, RequiredRun, Missing;
    var required := Keyword(schema, "required");
    if required.Some? && required.value.Arr? { RequiredLists(required.value.items, fields, path, e); }
  }

  lemma ConstLists(env: Env, schema: Json, value: Json, path: Path, e: SchemaError)
    requires Sane(env, schema) && WellFormed(value)
    ensures Lists(ConstRun(env, schema, value, path), e, e.path == path && ConstComplaint(schema, value, e.keyword, e.detail))
  {
    hide Keyword, JsonEqual, Same, NumberText, WellFormed, EnumComplaint;
    KeywordWellFormed(schema, "const");
    var constant := Keyword(schema, "const");
    if constant.Some? { SameDecided(env.show, value, constant.value); }
    EnumLists(env, schema, value, path, e);
  }

  lemma EnumLists(env: Env, schema: Json, value: Json, path: Path, e: SchemaError)
    requires Sane(env, schema) && WellFormed(value)
    ensures var choices := Keyword(schema, "enum");
            var run := if choices.Some? && choices.value.Arr? && !(exists i | 0 <= i < |choices.value.items| :: JsonEqual(env.show, value, choices.value.items[i]))
                       then Fail(path, "enum", choices.value) else OK;
            Lists(run, e, e.path == path && EnumComplaint(schema, value, e.keyword, e.detail))
  {
    hide Keyword, JsonEqual, Same, NumberText, WellFormed;
    KeywordWellFormed(schema, "enum");
    var choices := Keyword(schema, "enum");
    if choices.Some? && choices.value.Arr? { ChosenDecided(env.show, value, choices.value); }
  }

  lemma ChosenDecided(show: int -> string, value: Json, choices: Json)
    requires NumberText(show) && WellFormed(value) && WellFormed(choices) && choices.Arr?
    ensures (exists i | 0 <= i < |choices.items| :: JsonEqual(show, value, choices.items[i])) <==> exists o | o in choices.items :: Same(value, o)
  {
    hide JsonEqual, Same, NumberText;
    forall i | 0 <= i < |choices.items| ensures JsonEqual(show, value, choices.items[i]) <==> Same(value, choices.items[i]) {
      SameDecided(show, value, choices.items[i]);
    }
  }

  lemma {:induction false} AnyOfShape(env: Env, fuel: nat, schema: Json, candidates: seq<Json>, value: Json, path: Path)
    requires forall c | c in candidates :: c < schema
    ensures var run := AnyOfRun(env, true, fuel, schema, candidates, value, path);
            !run.threw && run.errors != [] ==> run.errors == [SchemaError(path, "anyOf", Null)]
  {
    hide Eval;
    if candidates != [] && IsSchema(candidates[0]) {
      assert candidates[0] in candidates;
      assert forall c | c in candidates[1..] :: c in candidates;
      AnyOfShape(env, fuel, schema, candidates[1..], value, path);
    }
  }

  lemma AnyOfLists(env: Env, fuel: nat, schema: Json, value: Json, path: Path, e: SchemaError)
    requires schema.Obj? && Sane(env, schema) && WellFormed(value)
    ensures Lists(AnyOfKeyword(env, true, fuel, schema, value, path), e,
                  e.path == path && e.keyword == "anyOf" && e.detail == Null && !AnyOfConforms(env, fuel, schema, value))
  {
    hide Keyword, AnyOfRun, Sane, WellFormed, AnyOfConforms;
    AnyOfKeywordDecides(env, fuel, schema, value, path);
    var anyOf := Keyword(schema, "anyOf");
    if anyOf.Some? && anyOf.value.Arr? { AnyOfShape(env, fuel, schema, anyOf.value.items, value, path); }
  }

  /** A full report that did not throw lists a complaint exactly when it is true. */
  lemma {:induction false} ReportIsExact(env: Env, fuel: nat, schema: Json, value: Json, path: Path, e: SchemaError)
    requires IsSchema(schema) && Sane(env, schema) && WellFormed(value)
    ensures Lists(Eval(env, true, fuel, schema, value, path), e,
                  path <= e.path && Complaint(env, fuel, schema, value, Rest(path, e), e.keyword, e.detail))
    decreases fuel, schema, 9
  {
    hide SiblingsRun, OwnComplaint, PartComplaint, Sane, WellFormed, TypeConforms;
    assert e.path == path <==> path <= e.path && Rest(path, e) == [];
    if schema.Obj? {
      var ref := Keyword(schema, "$ref");
      if ref.Some? && ref.value.Str? {
        SaneTarget(env, schema, ref.value.s);
        if Resolve(env.root, ref.value.s).Some? && fuel > 0 {
          ReportIsExact(env, fuel - 1, Resolve(env.root, ref.value.s).value, value, path, e);
        }
      } else {
        SiblingsList(env, fuel, schema, value, path, e);
      }
    }
  }

  lemma SaneTarget(env: Env, schema: Json, reference: string)
    requires Sane(env, schema)
    ensures Resolve(env.root, reference).Some? ==> Sane(env, Resolve(env.root, reference).value)
  {
    hide NumberText, WellFormed, Resolve;
    ResolveWellFormed(env.root, reference);
  }

  lemma {:induction false} SiblingsList(env: Env, fuel: nat, schema: Json, value: Json, path: Path, e: SchemaError)
    requires schema.Obj? && Sane(env, schema) && WellFormed(value)
    ensures Lists(SiblingsRun(env, true, fuel, schema, value, path), e,
                  path <= e.path && ((Rest(path, e) == [] && OwnComplaint(env, fuel, schema, value, e.keyword, e.detail))
                                     || (TypeConforms(schema, value) && PartComplaint(env, fuel, schema, value, Rest(path, e), e.keyword, e.detail))))
    decreases fuel, schema, 8, 2
  {
    hide AnyOfKeyword, ConstRun, KindRun, AnyOfConforms, ConstComplaint, KindComplaint, PartComplaint, Sane, WellFormed, HasType, MatchesType, Keyword;
    assert e.path == path <==> path <= e.path && Rest(path, e) == [];
    AnyOfLists(env, fuel, schema, value, path, e);
    ConstLists(env, schema, value, path, e);
    if Keyword(schema, "type").Some? { TypeDecided(Keyword(schema, "type").value, value); }
    KindList(env, fuel, schema, value, path, e);
  }

  lemma {:induction false} KindList(env: Env, fuel: nat, schema: Json, value: Json, path: Path, e: SchemaError)
    requires schema.Obj? && Sane(env, schema) && WellFormed(value)
    ensures Lists(KindRun(env, true, fuel, schema, value, path), e,
                  path <= e.path && ((Rest(path, e) == [] && KindComplaint(env, schema, value, e.keyword, e.detail))
                                     || PartComplaint(env, fuel, schema, value, Rest(path, e), e.keyword, e.detail)))
    decreases fuel, schema, 8, 1
  {
    hide StringRun, NumberRun, ArrayRun, ObjectRun, Complaint, PropertyComplaint, Sane, WellFormed, Keyword, KindComplaint;
    assert e.path == path <==> path <= e.path && Rest(path, e) == [];
    match value
    case Str(s) => StringLists(env, schema, s, path, e);
    case Num(n) => NumberLists(schema, n, path, e, env);
    case Arr(items) => ArrayList(env, fuel, schema, value, path, e);
    case Obj(fields) => ObjectList(env, fuel, schema, value, path, e);
    case _ => NoKind(env, schema, value, e);
  }

  lemma NoKind(env: Env, schema: Json, value: Json, e: SchemaError)
    requires value.Null? || value.Bool?
    ensures !KindComplaint(env, schema, value, e.keyword, e.detail)
  {
  }

  lemma {:induction false} ArrayList(env: Env, fuel: nat, schema: Json, value: Json, path: Path, e: SchemaError)
    requires schema.Obj? && Sane(env, schema) && WellFormed(value) && value.Arr?
    ensures Lists(ArrayRun(env, true, fuel, schema, value.items, path), e,
                  path <= e.path && ((Rest(path, e) == [] && KindComplaint(env, schema, value, e.keyword, e.detail))
                                     || PartComplaint(env, fuel, schema, value, Rest(path, e), e.keyword, e.detail)))
    decreases fuel, schema, 8, 0
  {
    hide SizeRun, ItemsRun, Complaint, NumberText, Keyword, KindComplaint;
    assert e.path == path <==> path <= e.path && Rest(path, e) == [];
    SizeLists(env, schema, value.items, path, e);
    KeywordWellFormed(schema, "items");
    var each := Keyword(schema, "items");
    if each.Some? && IsSchema(each.value) {
      ItemsList(env, fuel, each.value, value.items, 0, path, e);
      if path <= e.path { ItemsApart(env, fuel, each.value, value.items, path, e); }
    }
  }

  /** The complaint is about the item, and at its place. */
  ghost predicate ItemComplaint(env: Env, fuel: nat, each: Json, items: seq<Json>, i: nat, path: Path, e: SchemaError)
    requires IsSchema(each) && i < |items|
  {
    path + [Index(i)] <= e.path && Complaint(env, fuel, each, items[i], Rest(path + [Index(i)], e), e.keyword, e.detail)
  }

  lemma ItemsApart(env: Env, fuel: nat, each: Json, items: seq<Json>, path: Path, e: SchemaError)
    requires IsSchema(each) && path <= e.path
    ensures (exists i | 0 <= i < |items| :: ItemComplaint(env, fuel, each, items, i, path, e)) <==>
            exists i | 0 <= i < |items| :: [Index(i)] <= Rest(path, e) && Complaint(env, fuel, each, items[i], Rest(path, e)[1..], e.keyword, e.detail)
  {
    hide Complaint;
    forall i | 0 <= i < |items|
      ensures ItemComplaint(env, fuel, each, items, i, path, e) <==>
              [Index(i)] <= Rest(path, e) && Complaint(env, fuel, each, items[i], Rest(path, e)[1..], e.keyword, e.detail)
    {
      OneDown(path, Index(i), e);
    }
  }

  lemma OneDown(path: Path, segment: Segment, e: SchemaError)
    requires path <= e.path
    ensures path + [segment] <= e.path <==> [segment] <= Rest(path, e)
    ensures path + [segment] <= e.path ==> Rest(path + [segment], e) == Rest(path, e)[1..]
  {
    if [segment] <= Rest(path, e) { assert e.path == path + Rest(path, e) && Rest(path, e)[0] == segment; }
    if path + [segment] <= e.path { assert Rest(path, e)[0] == e.path[|path|] == (path + [segment])[|path|]; }
  }

  lemma {:induction false} ItemsList(env: Env, fuel: nat, each: Json, items: seq<Json>, index: nat, path: Path, e: SchemaError)
    requires IsSchema(each) && index <= |items| && Sane(env, each) && forall i | 0 <= i < |items| :: WellFormed(items[i])
    ensures Lists(ItemsRun(env, true, fuel, each, items, index, path), e,
                  exists i | index <= i < |items| :: ItemComplaint(env, fuel, each, items, i, path, e))
    decreases fuel, each, 10, |items| - index + 1
  {
    hide Eval, Complaint, Sane, ItemComplaint, WellFormed;
    if index < |items| {
      ItemList(env, fuel, each, items, index, path, e);
      ItemsList(env, fuel, each, items, index + 1, path, e);
      ThenLists(Eval(env, true, fuel, each, items[index], path + [Index(index)]), ItemsRun(env, true, fuel, each, items, index + 1, path), e,
                ItemComplaint(env, fuel, each, items, index, path, e),
                exists i | index + 1 <= i < |items| :: ItemComplaint(env, fuel, each, items, i, path, e));
    }
  }

  lemma {:induction false} ItemList(env: Env, fuel: nat, each: Json, items: seq<Json>, index: nat, path: Path, e: SchemaError)
    requires IsSchema(each) && index < |items| && Sane(env, each) && WellFormed(items[index])
    ensures Lists(Eval(env, true, fuel, each, items[index], path + [Index(index)]), e, ItemComplaint(env, fuel, each, items, index, path, e))
    decreases fuel, each, 10, 0
  {
    hide Eval, Complaint, Sane, WellFormed;
    ReportIsExact(env, fuel, each, items[index], path + [Index(index)], e);
  }

  lemma {:induction false} ObjectList(env: Env, fuel: nat, schema: Json, value: Json, path: Path, e: SchemaError)
    requires schema.Obj? && Sane(env, schema) && WellFormed(value) && value.Obj?
    ensures Lists(ObjectRun(env, true, fuel, schema, value.fields, path), e,
                  path <= e.path && ((Rest(path, e) == [] && KindComplaint(env, schema, value, e.keyword, e.detail))
                                     || PartComplaint(env, fuel, schema, value, Rest(path, e), e.keyword, e.detail)))
    decreases fuel, schema, 8, 0
  {
    hide RequiredKeyword, PropertiesRun, PropertyComplaint, Sane, WellFormed, Keyword, ExtraProperty, RequiredComplaint;
    assert e.path == path <==> path <= e.path && Rest(path, e) == [];
    RequiredKeywordLists(schema, value.fields, path, e);
    FieldsWellFormed(value);
    if forall f | f in Children(schema, "patternProperties") :: IsSchema(f.value) {
      PropertiesList(env, fuel, schema, value.fields, path, e);
    }
  }

  /** A complaint about one property: at its place, or that it is there at all. */
  ghost predicate FieldComplaint(env: Env, fuel: nat, schema: Json, f: Field, path: Path, e: SchemaError)
    requires schema.Obj?
  {
    path <= e.path && (PropertyComplaint(env, fuel, schema, f, Rest(path, e), e.keyword, e.detail)
                       || (Rest(path, e) == [] && ExtraProperty(env, schema, f, e.keyword, e.detail)))
  }

  lemma {:induction false} PropertiesList(env: Env, fuel: nat, schema: Json, fields: seq<Field>, path: Path, e: SchemaError)
    requires schema.Obj? && Sane(env, schema) && forall i | 0 <= i < |fields| :: WellFormed(fields[i].value)
    requires forall f | f in Children(schema, "patternProperties") :: IsSchema(f.value)
    ensures Lists(PropertiesRun(env, true, fuel, schema, fields, path), e,
                  exists f | f in fields :: FieldComplaint(env, fuel, schema, f, path, e))
    decreases fuel, schema, 7, |fields|
  {
    hide PropertyRun, FieldComplaint, Sane, Keyword, Children;
    if fields != [] {
      PropertyList(env, fuel, schema, fields[0], path, e);
      PropertiesList(env, fuel, schema, fields[1..], path, e);
      assert forall f :: f in fields <==> f == fields[0] || f in fields[1..];
    }
  }

  lemma {:induction false} PropertyList(env: Env, fuel: nat, schema: Json, field: Field, path: Path, e: SchemaError)
    requires schema.Obj? && Sane(env, schema) && WellFormed(field.value)
    requires forall f | f in Children(schema, "patternProperties") :: IsSchema(f.value)
    ensures Lists(PropertyRun(env, true, fuel, schema, field, path), e, FieldComplaint(env, fuel, schema, field, path, e))
    decreases fuel, schema, 6
  {
    hide Eval, Complaint, FieldComplaint, PatternsRun, AdditionalRun, Rest, NumberText, Lookup, Keyword, WellFormed;
    var own, patterns, here := OwnSchema(schema, field.key), Children(schema, "patternProperties"), path + [Property(field.key)];
    FieldSplits(env, fuel, schema, field, path, e);
    if own.Some? {
      OwnWellFormed(schema, field.key);
      ReportIsExact(env, fuel, own.value, field.value, here, e);
    }
    forall f | f in patterns ensures WellFormed(f.value) { ChildWellFormed(schema, "patternProperties", f); }
    PatternsList(env, fuel, schema, patterns, field, path, e);
    RestList(env, fuel, schema, field, path, e);
    assert own.None? && !Matched(env, patterns, field.key) <==> Unclaimed(env, schema, field.key);
  }

  lemma FieldSplits(env: Env, fuel: nat, schema: Json, field: Field, path: Path, e: SchemaError)
    requires schema.Obj?
    ensures var own, rest, here := OwnSchema(schema, field.key), Keyword(schema, "additionalProperties"), path + [Property(field.key)];
            FieldComplaint(env, fuel, schema, field, path, e) <==>
              || (own.Some? && here <= e.path && Complaint(env, fuel, own.value, field.value, Rest(here, e), e.keyword, e.detail))
              || (here <= e.path && exists p | p in Children(schema, "patternProperties") ::
                    env.matches(p.key, field.key) && IsSchema(p.value) && Complaint(env, fuel, p.value, field.value, Rest(here, e), e.keyword, e.detail))
              || (Unclaimed(env, schema, field.key)
                  && (|| (here <= e.path && rest.Some? && rest.value.Obj? && Complaint(env, fuel, rest.value, field.value, Rest(here, e), e.keyword, e.detail))
                      || (e.path == path && e.keyword == "additionalProperties" && rest == Some(Bool(false)) && e.detail == Str(field.key))))
  {
    hide Complaint, Unclaimed, Keyword, OwnSchema, Children;
    assert e.path == path <==> path <= e.path && Rest(path, e) == [];
    var here := path + [Property(field.key)];
    if path <= e.path {
      OneDown(path, Property(field.key), e);
      var at := Rest(path, e);
      assert [Property(field.key)] <= at ==>
        (PatternComplaint(env, fuel, schema, Children(schema, "patternProperties"), field, at, e.keyword, e.detail) <==>
         exists p | p in Children(schema, "patternProperties") ::
           env.matches(p.key, field.key) && IsSchema(p.value) && Complaint(env, fuel, p.value, field.value, Rest(here, e), e.keyword, e.detail));
      assert ExtraProperty(env, schema, field, e.keyword, e.detail) <==>
        Unclaimed(env, schema, field.key) && e.keyword == "additionalProperties" && Keyword(schema, "additionalProperties") == Some(Bool(false)) && e.detail == Str(field.key);
      hide PatternComplaint, ExtraProperty;
      assert at == [] ==> !(here <= e.path);
    } else {
      assert !(here <= e.path) by { Longer(path, here, e.path); }
    }
  }

  lemma Longer(path: Path, here: Path, whole: Path)
    requires path <= here
    ensures here <= whole ==> path <= whole
  {
  }

  lemma OwnWellFormed(schema: Json, key: string)
    requires WellFormed(schema) && OwnSchema(schema, key).Some?
    ensures WellFormed(OwnSchema(schema, key).value)
  {
    hide WellFormed;
    KeywordWellFormed(schema, "properties");
    KeywordWellFormed(Keyword(schema, "properties").value, key);
  }

  lemma {:induction false} PatternsList(env: Env, fuel: nat, schema: Json, patterns: seq<Field>, field: Field, path: Path, e: SchemaError)
    requires forall f | f in patterns :: f.value < schema && IsSchema(f.value) && WellFormed(f.value)
    requires NumberText(env.show) && WellFormed(env.root) && WellFormed(field.value)
    ensures Lists(PatternsRun(env, true, fuel, schema, patterns, field, path), e,
                  path + [Property(field.key)] <= e.path
                  && exists p | p in patterns ::
                       env.matches(p.key, field.key) && IsSchema(p.value)
                       && Complaint(env, fuel, p.value, field.value, Rest(path + [Property(field.key)], e), e.keyword, e.detail))
    decreases fuel, schema, 5, |patterns|
  {
    hide Eval, Complaint, NumberText, WellFormed, Rest;
    if patterns != [] {
      assert patterns[0] in patterns;
      assert forall f :: f in patterns <==> f == patterns[0] || f in patterns[1..];
      PatternsList(env, fuel, schema, patterns[1..], field, path, e);
      if env.matches(patterns[0].key, field.key) {
        ReportIsExact(env, fuel, patterns[0].value, field.value, path + [Property(field.key)], e);
      }
    }
  }

  lemma {:induction false} RestList(env: Env, fuel: nat, schema: Json, field: Field, path: Path, e: SchemaError)
    requires schema.Obj? && Sane(env, schema) && WellFormed(field.value)
    ensures var rest, here := Keyword(schema, "additionalProperties"), path + [Property(field.key)];
            Lists(AdditionalRun(env, true, fuel, schema, field, path), e,
                  || (here <= e.path && rest.Some? && rest.value.Obj? && Complaint(env, fuel, rest.value, field.value, Rest(here, e), e.keyword, e.detail))
                  || (e.path == path && e.keyword == "additionalProperties" && rest == Some(Bool(false)) && e.detail == Str(field.key)))
    decreases fuel, schema, 4
  {
    hide Eval, Complaint, NumberText, WellFormed, Keyword, Rest;
    KeywordWellFormed(schema, "additionalProperties");
    var rest := Keyword(schema, "additionalProperties");
    if rest.Some? && rest.value.Obj? { ReportIsExact(env, fuel, rest.value, field.value, path + [Property(field.key)], e); }
  }
}
