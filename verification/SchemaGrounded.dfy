/** Which schemas cannot make the validator throw: src/schema-validator.ts, lines 103-139 and 282-301.
  *
  * The condition is about the schema alone, or about the schema and how deep the value is, so that
  * schemas that refer to themselves through `properties` or `items` are covered. Under it both modes
  * agree, decide conformance, and more room for references changes nothing. */
module SchemaGrounded {
  import opened Json
  import opened SchemaConformance
  import opened SchemaEvaluation
  import opened SchemaModes
  import opened Wrappers

  // ---------------------------------------------------------------- depth of a value

  /** Levels of arrays and objects in a value. */
  function Depth(v: Json): nat
    decreases v, 1
  {
    match v
    case Arr(items) => 1 + ItemsDepth(v, items)
    case Obj(fields) => 1 + FieldsDepth(v, fields)
    case _ => 0
  }

  function ItemsDepth(v: Json, items: seq<Json>): (depth: nat)
    requires forall i | i in items :: i < v
    ensures forall i | i in items :: Depth(i) <= depth
    decreases v, 0, |items|
  {
    if items == [] then 0
    else
      assert items[0] in items && forall i | i in items[1..] :: i in items;
      assert forall i | i in items :: i == items[0] || i in items[1..];
      var first, rest := Depth(items[0]), ItemsDepth(v, items[1..]);
      if first < rest then rest else first
  }

  function FieldsDepth(v: Json, fields: seq<Field>): (depth: nat)
    requires forall f | f in fields :: f.value < v
    ensures forall f | f in fields :: Depth(f.value) <= depth
    decreases v, 0, |fields|
  {
    if fields == [] then 0
    else
      assert fields[0] in fields && forall f | f in fields[1..] :: f in fields;
      assert forall f | f in fields :: f == fields[0] || f in fields[1..];
      var first, rest := Depth(fields[0].value), FieldsDepth(v, fields[1..]);
      if first < rest then rest else first
  }

  /** The value has at most this many levels; None is no bound. */
  predicate Within(depth: Option<nat>, value: Json)
  {
    depth.Some? ==> Depth(value) <= depth.value
  }

  function Below(depth: Option<nat>): Option<nat>
  {
    if depth.Some? && depth.value > 0 then Some(depth.value - 1) else depth
  }

  lemma ItemsWithin(depth: Option<nat>, items: seq<Json>)
    requires Within(depth, Arr(items))
    ensures depth != Some(0) && forall i | i in items :: Within(Below(depth), i)
  {
  }

  lemma FieldsWithin(depth: Option<nat>, fields: seq<Field>)
    requires Within(depth, Obj(fields))
    ensures depth != Some(0) && forall f | f in fields :: Within(Below(depth), f.value)
  {
  }

  // ---------------------------------------------------------------- grounded schemas

  function Candidates(schema: Json): (candidates: seq<Json>)
    ensures forall c | c in candidates :: c < schema
  {
    match Keyword(schema, "anyOf")
    case Some(Arr(candidates)) => candidates
    case _ => []
  }

  /** Every candidate and every pattern holds a schema, and every reference met in values of this
    * depth resolves, after at most `fuel` references in a row. Without a bound on the depth this
    * is a condition on the schema alone; `SchemaCycles` says which schemas have it for every
    * depth, with enough fuel. */
  predicate Grounded(env: Env, fuel: nat, depth: Option<nat>, schema: Json)
    requires IsSchema(schema)
    decreases fuel, schema, 1
  {
    if schema.Bool? then true
    else match Keyword(schema, "$ref")
      case Some(Str(reference)) =>
        var target := Resolve(env.root, reference);
        target.Some? && fuel > 0 && Grounded(env, fuel - 1, depth, target.value)
      case _ =>
        && (forall c | c in Candidates(schema) :: IsSchema(c) && Grounded(env, fuel, depth, c))
        && (forall f | f in Children(schema, "patternProperties") :: IsSchema(f.value))
        && (depth != Some(0) ==> InnerGrounded(env, fuel, Below(depth), schema))
  }

  /** The schemas for what is inside a value. */
  predicate InnerGrounded(env: Env, fuel: nat, depth: Option<nat>, schema: Json)
    decreases fuel, schema, 0
  {
    var each, additional := Keyword(schema, "items"), Keyword(schema, "additionalProperties");
    && (each.Some? && IsSchema(each.value) ==> Grounded(env, fuel, depth, each.value))
    && (additional.Some? && additional.value.Obj? ==> Grounded(env, fuel, depth, additional.value))
    && (forall f | f in Children(schema, "properties") && IsSchema(f.value) :: Grounded(env, fuel, depth, f.value))
    && (forall f | f in Children(schema, "patternProperties") && IsSchema(f.value) :: Grounded(env, fuel, depth, f.value))
  }

  // ---------------------------------------------------------------- a grounded schema never throws

  /** In either mode, on every value of that depth. */
  lemma {:induction false} GroundedNeverThrows(env: Env, all: bool, fuel: nat, depth: Option<nat>, schema: Json, value: Json, path: Path)
    requires IsSchema(schema) && Grounded(env, fuel, depth, schema) && Within(depth, value)
    ensures !Eval(env, all, fuel, schema, value, path).threw
    decreases fuel, schema, 9
  {
    hide SiblingsRun, InnerGrounded, Within;
    if schema.Obj? {
      var ref := Keyword(schema, "$ref");
      if ref.Some? && ref.value.Str? {
        GroundedNeverThrows(env, all, fuel - 1, depth, Resolve(env.root, ref.value.s).value, value, path);
      } else {
        SiblingsNeverThrow(env, all, fuel, depth, schema, value, path);
      }
    }
  }

  lemma {:induction false} SiblingsNeverThrow(env: Env, all: bool, fuel: nat, depth: Option<nat>, schema: Json, value: Json, path: Path)
    requires schema.Obj? && Within(depth, value)
    requires forall c | c in Candidates(schema) :: IsSchema(c) && Grounded(env, fuel, depth, c)
    requires forall f | f in Children(schema, "patternProperties") :: IsSchema(f.value)
    requires depth != Some(0) ==> InnerGrounded(env, fuel, Below(depth), schema)
    ensures !SiblingsRun(env, all, fuel, schema, value, path).threw
    decreases fuel, schema, 8
  {
    hide AnyOfRun, Grounded, InnerGrounded, KindRun, Within;
    AnyOfNeverThrows(env, all, fuel, depth, schema, Candidates(schema), value, path);
    KindNeverThrows(env, all, fuel, depth, schema, value, path);
  }

  lemma {:induction false} AnyOfNeverThrows(env: Env, all: bool, fuel: nat, depth: Option<nat>, schema: Json, candidates: seq<Json>, value: Json, path: Path)
    requires forall c | c in candidates :: c < schema && IsSchema(c) && Grounded(env, fuel, depth, c)
    requires Within(depth, value)
    ensures !AnyOfRun(env, all, fuel, schema, candidates, value, path).threw
    decreases fuel, schema, 7, |candidates|
  {
    hide Eval, Grounded, Within;
    if candidates != [] {
      assert candidates[0] in candidates && forall c | c in candidates[1..] :: c in candidates;
      GroundedNeverThrows(env, all, fuel, depth, candidates[0], value, path);
      AnyOfNeverThrows(env, all, fuel, depth, schema, candidates[1..], value, path);
    }
  }

  lemma {:induction false} KindNeverThrows(env: Env, all: bool, fuel: nat, depth: Option<nat>, schema: Json, value: Json, path: Path)
    requires schema.Obj? && Within(depth, value)
    requires forall f | f in Children(schema, "patternProperties") :: IsSchema(f.value)
    requires depth != Some(0) ==> InnerGrounded(env, fuel, Below(depth), schema)
    ensures !KindRun(env, all, fuel, schema, value, path).threw
    decreases fuel, schema, 7
  {
    hide ArrayRun, ObjectRun, InnerGrounded, Within, LimitRun, Less, Units, Count;
    match value
    case Arr(items) => ArrayNeverThrows(env, all, fuel, depth, schema, items, path);
    case Obj(fields) => ObjectNeverThrows(env, all, fuel, depth, schema, fields, path);
    case _ =>
  }

  lemma {:induction false} ArrayNeverThrows(env: Env, all: bool, fuel: nat, depth: Option<nat>, schema: Json, items: seq<Json>, path: Path)
    requires schema.Obj? && Within(depth, Arr(items))
    requires depth != Some(0) ==> InnerGrounded(env, fuel, Below(depth), schema)
    ensures !ArrayRun(env, all, fuel, schema, items, path).threw
    decreases fuel, schema, 6
  {
    hide SizeRun, ItemsRun, Grounded, Within, Below;
    ItemsWithin(depth, items);
    SizeNeverThrows(env, all, schema, items, path);
    var each := Keyword(schema, "items");
    if each.Some? && IsSchema(each.value) { ItemsNeverThrow(env, all, fuel, Below(depth), each.value, items, 0, path); }
  }

  lemma SizeNeverThrows(env: Env, all: bool, schema: Json, items: seq<Json>, path: Path)
    ensures !SizeRun(env, all, schema, items, path).threw
  {
    hide LimitRun, HasDuplicates, Less, Count;
  }

  lemma {:induction false} ItemsNeverThrow(env: Env, all: bool, fuel: nat, depth: Option<nat>, each: Json, items: seq<Json>, index: nat, path: Path)
    requires IsSchema(each) && index <= |items| && Grounded(env, fuel, depth, each) && forall i | i in items :: Within(depth, i)
    ensures !ItemsRun(env, all, fuel, each, items, index, path).threw
    decreases fuel, each, 10, |items| - index
  {
    hide Eval, Grounded, Within;
    if index < |items| {
      GroundedNeverThrows(env, all, fuel, depth, each, items[index], path + [Index(index)]);
      ItemsNeverThrow(env, all, fuel, depth, each, items, index + 1, path);
    }
  }

  lemma {:induction false} RequiredNeverThrows(all: bool, required: seq<Json>, fields: seq<Field>, path: Path)
    ensures !RequiredRun(all, required, fields, path).threw
  {
    if required != [] { RequiredNeverThrows(all, required[1..], fields, path); }
  }

  lemma {:induction false} ObjectNeverThrows(env: Env, all: bool, fuel: nat, depth: Option<nat>, schema: Json, fields: seq<Field>, path: Path)
    requires schema.Obj? && Within(depth, Obj(fields))
    requires forall f | f in Children(schema, "patternProperties") :: IsSchema(f.value)
    requires depth != Some(0) ==> InnerGrounded(env, fuel, Below(depth), schema)
    ensures !ObjectRun(env, all, fuel, schema, fields, path).threw
    decreases fuel, schema, 6
  {
    hide RequiredRun, PropertiesRun, InnerGrounded, Within, Below;
    FieldsWithin(depth, fields);
    var required := Keyword(schema, "required");
    if required.Some? && required.value.Arr? { RequiredNeverThrows(all, required.value.items, fields, path); }
    PropertiesNeverThrow(env, all, fuel, Below(depth), schema, fields, path);
  }

  lemma {:induction false} PropertiesNeverThrow(env: Env, all: bool, fuel: nat, depth: Option<nat>, schema: Json, fields: seq<Field>, path: Path)
    requires schema.Obj? && forall f | f in Children(schema, "patternProperties") :: IsSchema(f.value)
    requires InnerGrounded(env, fuel, depth, schema) && forall f | f in fields :: Within(depth, f.value)
    ensures !PropertiesRun(env, all, fuel, schema, fields, path).threw
    decreases fuel, schema, 5, |fields|
  {
    hide PropertyRun, InnerGrounded, Within;
    if fields != [] {
      assert fields[0] in fields && forall f | f in fields[1..] :: f in fields;
      PropertyNeverThrows(env, all, fuel, depth, schema, fields[0], path);
      PropertiesNeverThrow(env, all, fuel, depth, schema, fields[1..], path);
    }
  }

  lemma OwnIsChild(schema: Json, key: string)
    ensures var own := OwnSchema(schema, key);
            own.Some? ==> IsSchema(own.value) && exists f :: f in Children(schema, "properties") && f.value == own.value
  {
    hide Keyword;
    var properties := Children(schema, "properties");
    var held := Lookup(properties, key);
    if held.Some? {
      var i :| 0 <= i < |properties| && properties[i] == Field(key, held.value);
      assert properties[i] in properties;
    }
  }

  lemma {:induction false} PropertyNeverThrows(env: Env, all: bool, fuel: nat, depth: Option<nat>, schema: Json, field: Field, path: Path)
    requires schema.Obj? && forall f | f in Children(schema, "patternProperties") :: IsSchema(f.value)
    requires InnerGrounded(env, fuel, depth, schema) && Within(depth, field.value)
    ensures !PropertyRun(env, all, fuel, schema, field, path).threw
    decreases fuel, schema, 4
  {
    hide Eval, PatternsRun, Grounded, Within, Keyword, Children, OwnSchema, AdditionalRun, Matched;
    OwnIsChild(schema, field.key);
    var own := OwnSchema(schema, field.key);
    if own.Some? { GroundedNeverThrows(env, all, fuel, depth, own.value, field.value, path + [Property(field.key)]); }
    PatternsNeverThrow(env, all, fuel, depth, schema, Children(schema, "patternProperties"), field, path);
    AdditionalNeverThrows(env, all, fuel, depth, schema, field, path);
  }

  lemma {:induction false} PatternsNeverThrow(env: Env, all: bool, fuel: nat, depth: Option<nat>, schema: Json, patterns: seq<Field>, field: Field, path: Path)
    requires Subschemas(schema, patterns) && Within(depth, field.value)
    requires forall f | f in patterns :: IsSchema(f.value) && Grounded(env, fuel, depth, f.value)
    ensures !PatternsRun(env, all, fuel, schema, patterns, field, path).threw
    decreases fuel, schema, 3, |patterns|
  {
    hide Eval, Grounded, Within;
    if patterns != [] {
      assert patterns[0] in patterns && forall f | f in patterns[1..] :: f in patterns;
      PatternsNeverThrow(env, all, fuel, depth, schema, patterns[1..], field, path);
      if env.matches(patterns[0].key, field.key) {
        GroundedNeverThrows(env, all, fuel, depth, patterns[0].value, field.value, path + [Property(field.key)]);
      }
    }
  }

  lemma {:induction false} AdditionalNeverThrows(env: Env, all: bool, fuel: nat, depth: Option<nat>, schema: Json, field: Field, path: Path)
    requires InnerGrounded(env, fuel, depth, schema) && Within(depth, field.value)
    ensures !AdditionalRun(env, all, fuel, schema, field, path).threw
    decreases fuel, schema, 3
  {
    hide Eval, Grounded, Within, Keyword, Children;
    var additional := Keyword(schema, "additionalProperties");
    if additional.Some? && additional.value.Obj? {
      GroundedNeverThrows(env, all, fuel, depth, additional.value, field.value, path + [Property(field.key)]);
    }
  }

  // ---------------------------------------------------------------- more room for references

  /** What ended without a throw is not changed by more fuel. */
  ghost predicate Settled(run: Run, later: Run)
  {
    !run.threw ==> later == run
  }

  lemma {:induction false} MoreFuelChangesNothing(env: Env, all: bool, fuel: nat, more: nat, schema: Json, value: Json, path: Path)
    requires IsSchema(schema) && fuel <= more
    ensures Settled(Eval(env, all, fuel, schema, value, path), Eval(env, all, more, schema, value, path))
    decreases fuel, schema, 9
  {
    hide SiblingsRun;
    if schema.Obj? {
      var ref := Keyword(schema, "$ref");
      if ref.Some? && ref.value.Str? {
        var target := Resolve(env.root, ref.value.s);
        if target.Some? && fuel > 0 { MoreFuelChangesNothing(env, all, fuel - 1, more - 1, target.value, value, path); }
      } else {
        SiblingsSettled(env, all, fuel, more, schema, value, path);
      }
    }
  }

  lemma {:induction false} SiblingsSettled(env: Env, all: bool, fuel: nat, more: nat, schema: Json, value: Json, path: Path)
    requires schema.Obj? && fuel <= more
    ensures Settled(SiblingsRun(env, all, fuel, schema, value, path), SiblingsRun(env, all, more, schema, value, path))
    decreases fuel, schema, 8
  {
    hide AnyOfRun, ConstRun, KindRun;
    var anyOf := Keyword(schema, "anyOf");
    if anyOf.Some? && anyOf.value.Arr? { AnyOfSettled(env, all, fuel, more, schema, anyOf.value.items, value, path); }
    KindSettled(env, all, fuel, more, schema, value, path);
  }

  lemma {:induction false} AnyOfSettled(env: Env, all: bool, fuel: nat, more: nat, schema: Json, candidates: seq<Json>, value: Json, path: Path)
    requires fuel <= more && forall c | c in candidates :: c < schema
    ensures Settled(AnyOfRun(env, all, fuel, schema, candidates, value, path), AnyOfRun(env, all, more, schema, candidates, value, path))
    decreases fuel, schema, 7, |candidates|
  {
    hide Eval;
    if candidates != [] && IsSchema(candidates[0]) {
      assert candidates[0] in candidates && forall c | c in candidates[1..] :: c in candidates;
      MoreFuelChangesNothing(env, all, fuel, more, candidates[0], value, path);
      AnyOfSettled(env, all, fuel, more, schema, candidates[1..], value, path);
    }
  }

  lemma {:induction false} KindSettled(env: Env, all: bool, fuel: nat, more: nat, schema: Json, value: Json, path: Path)
    requires schema.Obj? && fuel <= more
    ensures Settled(KindRun(env, all, fuel, schema, value, path), KindRun(env, all, more, schema, value, path))
    decreases fuel, schema, 7
  {
    hide StringRun, NumberRun, SizeRun, ItemsRun, RequiredKeyword, PropertiesRun;
    match value
    case Arr(items) =>
      var each := Keyword(schema, "items");
      if each.Some? && IsSchema(each.value) { ItemsSettled(env, all, fuel, more, each.value, items, 0, path); }
    case Obj(fields) =>
      if forall f | f in Children(schema, "patternProperties") :: IsSchema(f.value) {
        PropertiesSettled(env, all, fuel, more, schema, fields, path);
      }
    case _ =>
  }

  lemma {:induction false} ItemsSettled(env: Env, all: bool, fuel: nat, more: nat, each: Json, items: seq<Json>, index: nat, path: Path)
    requires IsSchema(each) && index <= |items| && fuel <= more
    ensures Settled(ItemsRun(env, all, fuel, each, items, index, path), ItemsRun(env, all, more, each, items, index, path))
    decreases fuel, each, 10, |items| - index
  {
    hide Eval;
    if index < |items| {
      MoreFuelChangesNothing(env, all, fuel, more, each, items[index], path + [Index(index)]);
      ItemsSettled(env, all, fuel, more, each, items, index + 1, path);
    }
  }

  lemma {:induction false} PropertiesSettled(env: Env, all: bool, fuel: nat, more: nat, schema: Json, fields: seq<Field>, path: Path)
    requires schema.Obj? && fuel <= more && forall f | f in Children(schema, "patternProperties") :: IsSchema(f.value)
    ensures Settled(PropertiesRun(env, all, fuel, schema, fields, path), PropertiesRun(env, all, more, schema, fields, path))
    decreases fuel, schema, 5, |fields|
  {
    hide PropertyRun;
    if fields != [] {
      PropertySettled(env, all, fuel, more, schema, fields[0], path);
      PropertiesSettled(env, all, fuel, more, schema, fields[1..], path);
    }
  }

  lemma {:induction false} PropertySettled(env: Env, all: bool, fuel: nat, more: nat, schema: Json, field: Field, path: Path)
    requires schema.Obj? && fuel <= more && forall f | f in Children(schema, "patternProperties") :: IsSchema(f.value)
    ensures Settled(PropertyRun(env, all, fuel, schema, field, path), PropertyRun(env, all, more, schema, field, path))
    decreases fuel, schema, 4
  {
    hide Eval, PatternsRun, Keyword, Children, OwnSchema, AdditionalRun, Matched;
    var own := OwnSchema(schema, field.key);
    if own.Some? { MoreFuelChangesNothing(env, all, fuel, more, own.value, field.value, path + [Property(field.key)]); }
    PatternsSettled(env, all, fuel, more, schema, Children(schema, "patternProperties"), field, path);
    AdditionalSettled(env, all, fuel, more, schema, field, path);
  }

  lemma {:induction false} PatternsSettled(env: Env, all: bool, fuel: nat, more: nat, schema: Json, patterns: seq<Field>, field: Field, path: Path)
    requires Subschemas(schema, patterns) && fuel <= more
    ensures Settled(PatternsRun(env, all, fuel, schema, patterns, field, path), PatternsRun(env, all, more, schema, patterns, field, path))
    decreases fuel, schema, 3, |patterns|
  {
    hide Eval;
    if patterns != [] {
      assert patterns[0] in patterns && forall f | f in patterns[1..] :: f in patterns;
      PatternsSettled(env, all, fuel, more, schema, patterns[1..], field, path);
      if env.matches(patterns[0].key, field.key) {
        MoreFuelChangesNothing(env, all, fuel, more, patterns[0].value, field.value, path + [Property(field.key)]);
      }
    }
  }

  lemma {:induction false} AdditionalSettled(env: Env, all: bool, fuel: nat, more: nat, schema: Json, field: Field, path: Path)
    requires fuel <= more
    ensures Settled(AdditionalRun(env, all, fuel, schema, field, path), AdditionalRun(env, all, more, schema, field, path))
    decreases fuel, schema, 3
  {
    hide Eval;
    var additional := Keyword(schema, "additionalProperties");
    if additional.Some? && additional.value.Obj? {
      MoreFuelChangesNothing(env, all, fuel, more, additional.value, field.value, path + [Property(field.key)]);
    }
  }

  // ---------------------------------------------------------------- what holds of grounded schemas

  /** Of a grounded schema: neither mode throws, stopping early reports exactly the first error of the
    * full list, the list is empty exactly when the value conforms, and so it stays with more fuel. */
  lemma GroundedDecides(env: Env, fuel: nat, depth: Option<nat>, schema: Json, value: Json, path: Path, more: nat)
    requires IsSchema(schema) && Sane(env, schema) && WellFormed(value) && fuel <= more
    requires Grounded(env, fuel, depth, schema) && Within(depth, value)
    ensures var fast, full := Eval(env, false, fuel, schema, value, path), Eval(env, true, fuel, schema, value, path);
            && !fast.threw && !full.threw && fast == First(full)
            && (full.errors == [] <==> Conforms(env, fuel, schema, value))
            && Eval(env, false, more, schema, value, path) == fast && Eval(env, true, more, schema, value, path) == full
            && (Conforms(env, more, schema, value) <==> Conforms(env, fuel, schema, value))
  {
    hide Eval, Conforms, Grounded, Within, Sane, WellFormed;
    GroundedNeverThrows(env, false, fuel, depth, schema, value, path);
    GroundedNeverThrows(env, true, fuel, depth, schema, value, path);
    ModesAgree(env, fuel, schema, value, path);
    MoreFuelChangesNothing(env, false, fuel, more, schema, value, path);
    MoreFuelChangesNothing(env, true, fuel, more, schema, value, path);
    EvalDecides(env, fuel, schema, value, path);
    EvalDecides(env, more, schema, value, path);
  }

  /** A bound on the depth covers smaller ones, and no bound covers all. */
  predicate Covers(deep: Option<nat>, depth: Option<nat>)
  {
    deep.Some? ==> depth.Some? && depth.value <= deep.value
  }

  /** More room for references and shallower values keep a schema grounded. */
  lemma {:induction false} GroundedWithMore(env: Env, fuel: nat, more: nat, deep: Option<nat>, depth: Option<nat>, schema: Json)
    requires IsSchema(schema) && Grounded(env, fuel, deep, schema) && fuel <= more && Covers(deep, depth)
    ensures Grounded(env, more, depth, schema)
    decreases fuel, schema, 1
  {
    hide InnerGrounded, Keyword, Resolve;
    if schema.Obj? {
      var ref := Keyword(schema, "$ref");
      if ref.Some? && ref.value.Str? {
        GroundedWithMore(env, fuel - 1, more - 1, deep, depth, Resolve(env.root, ref.value.s).value);
      } else {
        forall c | c in Candidates(schema) ensures Grounded(env, more, depth, c) { GroundedWithMore(env, fuel, more, deep, depth, c); }
        if depth != Some(0) { InnerWithMore(env, fuel, more, Below(deep), Below(depth), schema); }
      }
    }
  }

  lemma {:induction false} InnerWithMore(env: Env, fuel: nat, more: nat, deep: Option<nat>, depth: Option<nat>, schema: Json)
    requires InnerGrounded(env, fuel, deep, schema) && fuel <= more && Covers(deep, depth)
    ensures InnerGrounded(env, more, depth, schema)
    decreases fuel, schema, 0
  {
    hide Grounded;
    var each, additional := Keyword(schema, "items"), Keyword(schema, "additionalProperties");
    if each.Some? && IsSchema(each.value) { GroundedWithMore(env, fuel, more, deep, depth, each.value); }
    if additional.Some? && additional.value.Obj? { GroundedWithMore(env, fuel, more, deep, depth, additional.value); }
    forall f | f in Children(schema, "properties") && IsSchema(f.value) ensures Grounded(env, more, depth, f.value) {
      GroundedWithMore(env, fuel, more, deep, depth, f.value);
    }
    forall f | f in Children(schema, "patternProperties") && IsSchema(f.value) ensures Grounded(env, more, depth, f.value) {
      GroundedWithMore(env, fuel, more, deep, depth, f.value);
    }
  }
}
