/** `requireFixedProperties` (src/config-loader.ts, lines 341-351): the schema of a complete
  * configuration, which asks for every property that a partial configuration may leave out. */
module SchemaStrengthening {
  import opened Json
  import opened SchemaConformance
  import opened SchemaEvaluation
  import opened StableJson
  import opened Strings
  import opened Wrappers

  /** `Object.keys(properties).filter(name => name !== "$schema")` */
  function FixedNames(properties: seq<Field>): (names: seq<Json>)
    ensures forall i | 0 <= i < |names| :: names[i].Str?
    ensures forall name :: Str(name) in names <==> name != "$schema" && Lookup(properties, name).Some?
  {
    if properties == [] then []
    else (if properties[0].key == "$schema" then [] else [Str(properties[0].key)]) + FixedNames(properties[1..])
  }

  /** Assigning to a property: in its place, or at the end when it is new. */
  function Assign(fields: seq<Field>, key: string, value: Json): (after: seq<Field>)
    ensures Lookup(after, key) == Some(value)
    ensures forall other | other != key :: Lookup(after, other) == Lookup(fields, other)
  {
    if fields == [] then [Field(key, value)]
    else if fields[0].key == key then [Field(key, value)] + fields[1..]
    else
      var rest := Assign(fields[1..], key, value);
      assert ([fields[0]] + rest)[1..] == rest;
      [fields[0]] + rest
  }

  predicate IsObjectSchema(child: Json)
  {
    child.Obj? && Keyword(child, "type") == Some(Str("object"))
  }

  predicate HasProperties(schema: Json)
  {
    Keyword(schema, "properties").Some? && Keyword(schema, "properties").value.Obj?
  }

  function Strengthen(schema: Json): (copy: Json)
    requires schema.Obj?
    ensures copy.Obj?
    decreases schema, 1
  {
    if !HasProperties(schema) then schema
    else
      var properties := Children(schema, "properties");
      var names := FixedNames(properties);
      var required := if names != [] then Assign(schema.fields, "required", Arr(names)) else schema.fields;
      Obj(Assign(required, "properties", Obj(StrengthenAll(schema, properties))))
  }

  function StrengthenAll(schema: Json, properties: seq<Field>): (strengthened: seq<Field>)
    requires forall f | f in properties :: f.value < schema
    ensures |strengthened| == |properties|
    ensures forall i | 0 <= i < |properties| :: strengthened[i] == Field(properties[i].key, StrengthenChild(properties[i].value))
    decreases schema, 0, |properties|
  {
    if properties == [] then []
    else
      assert properties[0] in properties;
      assert forall f | f in properties[1..] :: f in properties;
      [Field(properties[0].key, StrengthenChild(properties[0].value))] + StrengthenAll(schema, properties[1..])
  }

  /** Only properties declared with type `object` are rewritten in turn. */
  function StrengthenChild(child: Json): Json
    decreases child, 2
  {
    if IsObjectSchema(child) then Strengthen(child) else child
  }

  lemma {:induction false} StrengthenAssigns(schema: Json)
    requires schema.Obj?
    ensures !HasProperties(schema) ==> Strengthen(schema) == schema
    ensures HasProperties(schema) ==>
      var properties := Children(schema, "properties");
      var names := FixedNames(properties);
      Strengthen(schema) == Obj(Assign(if names != [] then Assign(schema.fields, "required", Arr(names)) else schema.fields,
                                       "properties", Obj(StrengthenAll(schema, properties))))
  {
    hide StrengthenAll, Assign, FixedNames;
  }

  method RequireFixedProperties(schema: Json) returns (copy: Json)
    requires schema.Obj?
    ensures copy == Strengthen(schema)
    decreases schema
  {
    hide Strengthen, StrengthenAll, Assign, FixedNames, HasProperties, Children, Lookup;
    StrengthenAssigns(schema);
    if !HasProperties(schema) { return schema; }
    var fields, properties := schema.fields, Children(schema, "properties");
    var names := FixedNames(properties);
    if names != [] { fields := Assign(fields, "required", Arr(names)); }
    ghost var original, target := properties, StrengthenAll(schema, properties);
    var next := 0;
    while next < |properties|
      invariant next <= |properties| == |original| == |target|
      invariant forall i | 0 <= i < next :: properties[i] == target[i]
      invariant forall i | next <= i < |properties| :: properties[i] == original[i]
    {
      var child := properties[next].value;
      assert properties[next] == original[next] && original[next] in original;
      if IsObjectSchema(child) {
        var nested := RequireFixedProperties(child);
        properties := properties[next := Field(properties[next].key, nested)];
      }
      next := next + 1;
    }
    assert properties == target;
    copy := Obj(Assign(fields, "properties", Obj(properties)));
  }

  // ---------------------------------------------------------------- what it changes

  lemma {:induction false} LookupStrengthened(properties: seq<Field>, strengthened: seq<Field>, key: string)
    requires |strengthened| == |properties|
    requires forall i | 0 <= i < |properties| :: strengthened[i] == Field(properties[i].key, StrengthenChild(properties[i].value))
    ensures Lookup(strengthened, key) ==
            match Lookup(properties, key)
            case Some(child) => Some(StrengthenChild(child))
            case None => None
  {
    hide StrengthenChild;
    if properties != [] && properties[0].key != key { LookupStrengthened(properties[1..], strengthened[1..], key); }
  }

  /** Every keyword but `required` and `properties` is kept. */
  lemma {:induction false} KeywordStrengthened(schema: Json, name: string)
    requires schema.Obj?
    ensures name != "required" && name != "properties" ==> Keyword(Strengthen(schema), name) == Keyword(schema, name)
    ensures !HasProperties(schema) ==> Strengthen(schema) == schema
    ensures HasProperties(schema) ==>
              && Keyword(Strengthen(schema), "properties") == Some(Obj(StrengthenAll(schema, Children(schema, "properties"))))
              && Keyword(Strengthen(schema), "required") ==
                   if FixedNames(Children(schema, "properties")) != [] then Some(Arr(FixedNames(Children(schema, "properties"))))
                   else Keyword(schema, "required")
  {
    hide Strengthen, StrengthenAll, FixedNames, Assign, Lookup;
    StrengthenAssigns(schema);
  }

  lemma {:induction false} OwnStrengthened(schema: Json, key: string)
    requires schema.Obj?
    ensures OwnSchema(Strengthen(schema), key) ==
            match OwnSchema(schema, key)
            case Some(child) => Some(StrengthenChild(child))
            case None => None
  {
    hide Strengthen, StrengthenAll;
    KeywordStrengthened(schema, "properties");
    if HasProperties(schema) { LookupStrengthened(Children(schema, "properties"), StrengthenAll(schema, Children(schema, "properties")), key); }
  }

  // ---------------------------------------------------------------- when it strengthens

  /** `required` names own properties, other than `$schema`, or is left alone. */
  predicate RequiresOwn(schema: Json)
  {
    var names := FixedNames(Children(schema, "properties"));
    var required := Keyword(schema, "required");
    names != [] && required.Some? && required.value.Arr? ==>
      forall i | 0 <= i < |required.value.items| && required.value.items[i].Str? :: required.value.items[i] in names
  }

  /** ... in the schema and in all the object schemas rewritten with it. */
  predicate RequireOwn(schema: Json)
  {
    && RequiresOwn(schema)
    && forall f | f in Children(schema, "properties") && IsObjectSchema(f.value) :: RequireOwn(f.value)
  }

  /** The path names a `properties` object itself, at the root or under properties of the root. */
  predicate NamesContainer(tokens: seq<string>)
  {
    tokens != [] && Token(tokens[0]) == "properties" && (|tokens| == 1 || NamesContainer(tokens[2..]))
  }

  predicate IsReference(field: Field) { field.key == "$ref" && field.value.Str? }

  predicate ReferenceToSchema(reference: string)
  {
    "#/" <= reference ==> !NamesContainer(Split(reference[2..], '/'))
  }

  /** No reference, however deep, takes a `properties` object for a schema. */
  predicate ReferencesToSchemas(v: Json)
  {
    match v
    case Arr(items) => forall i | 0 <= i < |items| :: ReferencesToSchemas(items[i])
    case Obj(fields) => forall i | 0 <= i < |fields| ::
      (IsReference(fields[i]) ==> ReferenceToSchema(fields[i].value.s)) && ReferencesToSchemas(fields[i].value)
    case _ => true
  }

  /** `stronger` stands where the original schema has `schema`. */
  ghost predicate StandsFor(stronger: Json, schema: Json)
  {
    && ReferencesToSchemas(schema)
    && (stronger == schema || (schema.Obj? && RequireOwn(schema) && stronger == Strengthen(schema)))
  }

  lemma {:induction false} LookupReferences(v: Json, key: string)
    requires v.Obj? && ReferencesToSchemas(v)
    ensures var held := Lookup(v.fields, key);
            held.Some? ==> ReferencesToSchemas(held.value) && (key == "$ref" && held.value.Str? ==> ReferenceToSchema(held.value.s))
  {
    var held := Lookup(v.fields, key);
    if held.Some? {
      var i :| 0 <= i < |v.fields| && v.fields[i] == Field(key, held.value);
    }
  }

  lemma {:induction false} KeywordReferences(schema: Json, name: string)
    requires ReferencesToSchemas(schema)
    ensures Keyword(schema, name).Some? ==> ReferencesToSchemas(Keyword(schema, name).value)
  {
    if schema.Obj? { LookupReferences(schema, name); }
  }

  lemma {:induction false} ChildReferences(schema: Json, name: string, f: Field)
    requires ReferencesToSchemas(schema) && f in Children(schema, name)
    ensures ReferencesToSchemas(f.value)
  {
    KeywordReferences(schema, name);
    var container := Keyword(schema, name).value;
    var i :| 0 <= i < |container.fields| && container.fields[i] == f;
  }

  lemma {:induction false} PropertyStandsFor(schema: Json, key: string)
    requires schema.Obj? && ReferencesToSchemas(schema) && RequireOwn(schema)
    ensures Lookup(Children(schema, "properties"), key).Some? ==>
              StandsFor(StrengthenChild(Lookup(Children(schema, "properties"), key).value), Lookup(Children(schema, "properties"), key).value)
  {
    hide Strengthen;
    var properties := Children(schema, "properties");
    var held := Lookup(properties, key);
    if held.Some? {
      var i :| 0 <= i < |properties| && properties[i] == Field(key, held.value);
      assert properties[i] in properties;
      ChildReferences(schema, "properties", properties[i]);
    }
  }

  // ---------------------------------------------------------------- references into the rewritten root

  lemma {:induction false} WalkInside(v: Option<Json>, tokens: seq<string>)
    requires v.Some? ==> ReferencesToSchemas(v.value)
    ensures Walk(v, tokens).Some? ==> ReferencesToSchemas(Walk(v, tokens).value)
    decreases |tokens|
  {
    if tokens != [] && v.Some? && v.value.Obj? {
      LookupReferences(v.value, Token(tokens[0]));
      WalkInside(Lookup(v.value.fields, Token(tokens[0])), tokens[1..]);
    }
  }

  /** A path that ends at a schema of the rewritten root ends at the one it stands for in the original. */
  lemma {:induction false} WalkStandsFor(schema: Json, tokens: seq<string>)
    requires schema.Obj? && ReferencesToSchemas(schema) && RequireOwn(schema) && !NamesContainer(tokens)
    ensures var there, here := Walk(Some(Strengthen(schema)), tokens), Walk(Some(schema), tokens);
            there.Some? && IsSchema(there.value) ==> here.Some? && StandsFor(there.value, here.value)
    decreases |tokens|, 1
  {
    hide Strengthen, StrengthenAll, RequireOwn, ReferencesToSchemas;
    WalkInside(Some(schema), tokens);
    if tokens == [] || !HasProperties(schema) {
      KeywordStrengthened(schema, "");
    } else if Token(tokens[0]) == "properties" {
      WalkThroughProperties(schema, tokens);
    } else if Token(tokens[0]) == "required" {
      KeywordStrengthened(schema, "required");
    } else {
      KeywordStrengthened(schema, Token(tokens[0]));
    }
  }

  lemma {:induction false} WalkThroughProperties(schema: Json, tokens: seq<string>)
    requires schema.Obj? && ReferencesToSchemas(schema) && RequireOwn(schema) && !NamesContainer(tokens)
    requires HasProperties(schema) && tokens != [] && Token(tokens[0]) == "properties"
    ensures var there, here := Walk(Some(Strengthen(schema)), tokens), Walk(Some(schema), tokens);
            there.Some? && IsSchema(there.value) ==> here.Some? && StandsFor(there.value, here.value)
    decreases |tokens|, 0
  {
    hide Strengthen, StrengthenAll, RequireOwn, ReferencesToSchemas;
    var properties, key := Children(schema, "properties"), Token(tokens[1]);
    KeywordStrengthened(schema, "properties");
    LookupStrengthened(properties, StrengthenAll(schema, properties), key);
    PropertyStandsFor(schema, key);
    var child := Lookup(properties, key);
    assert tokens[1..][1..] == tokens[2..] && tokens[1..][0] == tokens[1];
    assert Walk(Some(schema), tokens) == Walk(child, tokens[2..]);
    assert Walk(Some(Strengthen(schema)), tokens) == Walk(Lookup(StrengthenAll(schema, properties), key), tokens[2..]);
    if child.Some? {
      WalkInside(child, tokens[2..]);
      if IsObjectSchema(child.value) && StandsFor(Strengthen(child.value), child.value) && RequireOwn(child.value) {
        WalkStandsFor(child.value, tokens[2..]);
      }
    }
  }

  lemma {:induction false} ResolveStandsFor(root: Json, reference: string)
    requires root.Obj? && ReferencesToSchemas(root) && RequireOwn(root) && ReferenceToSchema(reference)
    ensures var there, here := Resolve(Strengthen(root), reference), Resolve(root, reference);
            there.Some? ==> here.Some? && StandsFor(there.value, here.value)
  {
    hide Strengthen, RequireOwn, ReferencesToSchemas, Walk, NamesContainer;
    if "#/" <= reference { WalkStandsFor(root, Split(reference[2..], '/')); }
  }

  // ---------------------------------------------------------------- the stronger schema is stronger

  function Strengthened(env: Env): Env
    requires env.root.Obj?
  {
    env.(root := Strengthen(env.root))
  }

  predicate Suitable(root: Json)
  {
    root.Obj? && RequireOwn(root) && ReferencesToSchemas(root)
  }

  lemma {:induction false} RequiredFollows(schema: Json, fields: seq<Field>)
    requires schema.Obj? && RequireOwn(schema)
    ensures HasRequired(Strengthen(schema), fields) ==> HasRequired(schema, fields)
  {
    hide Strengthen, FixedNames;
    KeywordStrengthened(schema, "required");
  }

  /** For every bound on `$ref`: what conforms to the stronger schema conforms to the one it stands for. */
  lemma {:induction false} ConformsFollows(env: Env, fuel: nat, stronger: Json, schema: Json, value: Json)
    requires Suitable(env.root) && IsSchema(schema) && IsSchema(stronger) && StandsFor(stronger, schema)
    ensures Conforms(Strengthened(env), fuel, stronger, value) ==> Conforms(env, fuel, schema, value)
    decreases fuel, schema, 4
  {
    hide Strengthen, RequireOwn, ReferencesToSchemas, AnyOfConforms, ConstConforms, KindConforms, HasType;
    if schema.Obj? && Conforms(Strengthened(env), fuel, stronger, value) {
      KeywordStrengthened(schema, "$ref");
      KeywordStrengthened(schema, "type");
      LookupReferences(schema, "$ref");
      var ref := Keyword(schema, "$ref");
      if ref.Some? && ref.value.Str? {
        ResolveStandsFor(env.root, ref.value.s);
        ConformsFollows(env, fuel - 1, Resolve(Strengthen(env.root), ref.value.s).value, Resolve(env.root, ref.value.s).value, value);
      } else {
        AnyOfFollows(env, fuel, stronger, schema, value);
        ConstFollows(stronger, schema, value);
        KindFollows(env, fuel, stronger, schema, value);
      }
    }
  }

  /** What strengthening keeps, it keeps with everything inside. */
  lemma {:induction false} KeywordStandsFor(stronger: Json, schema: Json, name: string)
    requires schema.Obj? && stronger.Obj? && StandsFor(stronger, schema) && name != "required" && name != "properties"
    ensures Keyword(stronger, name) == Keyword(schema, name) && Children(stronger, name) == Children(schema, name)
    ensures Keyword(schema, name).Some? ==> StandsFor(Keyword(schema, name).value, Keyword(schema, name).value)
    ensures forall f | f in Children(schema, name) :: StandsFor(f.value, f.value)
  {
    hide Strengthen, RequireOwn, ReferencesToSchemas;
    KeywordStrengthened(schema, name);
    KeywordReferences(schema, name);
    forall f | f in Children(schema, name) ensures StandsFor(f.value, f.value) { ChildReferences(schema, name, f); }
  }

  lemma {:induction false} ItemStandsFor(list: Json, item: Json)
    requires list.Arr? && StandsFor(list, list) && item in list.items
    ensures StandsFor(item, item)
  {
    hide RequireOwn, Strengthen;
    var i :| 0 <= i < |list.items| && list.items[i] == item;
  }

  lemma {:induction false} ConstFollows(stronger: Json, schema: Json, value: Json)
    requires schema.Obj? && stronger.Obj? && StandsFor(stronger, schema)
    ensures ConstConforms(stronger, value) ==> ConstConforms(schema, value)
  {
    hide Keyword, StandsFor, Same;
    KeywordStandsFor(stronger, schema, "const");
    KeywordStandsFor(stronger, schema, "enum");
  }

  lemma {:induction false} AnyOfFollows(env: Env, fuel: nat, stronger: Json, schema: Json, value: Json)
    requires env.root.Obj? && Suitable(env.root) && schema.Obj? && stronger.Obj? && StandsFor(stronger, schema)
    ensures AnyOfConforms(Strengthened(env), fuel, stronger, value) ==> AnyOfConforms(env, fuel, schema, value)
    decreases fuel, schema, 3
  {
    hide Keyword, StandsFor, Suitable, Conforms, Strengthened;
    KeywordStandsFor(stronger, schema, "anyOf");
    var anyOf := Keyword(schema, "anyOf");
    if anyOf.Some? && anyOf.value.Arr? {
      forall c | c in anyOf.value.items && IsSchema(c) ensures Conforms(Strengthened(env), fuel, c, value) ==> Conforms(env, fuel, c, value) {
        ItemStandsFor(anyOf.value, c);
        ConformsFollows(env, fuel, c, c, value);
      }
    }
  }

  lemma {:induction false} KindFollows(env: Env, fuel: nat, stronger: Json, schema: Json, value: Json)
    requires env.root.Obj? && Suitable(env.root) && schema.Obj? && stronger.Obj? && StandsFor(stronger, schema)
    ensures KindConforms(Strengthened(env), fuel, stronger, value) ==> KindConforms(env, fuel, schema, value)
    decreases fuel, schema, 3
  {
    match value
    case Arr(items) => ArrayFollows(env, fuel, stronger, schema, items);
    case Obj(fields) => ObjectFollows(env, fuel, stronger, schema, fields);
    case _ => SimpleFollows(env, fuel, stronger, schema, value);
  }

  lemma {:induction false} SimpleFollows(env: Env, fuel: nat, stronger: Json, schema: Json, value: Json)
    requires env.root.Obj? && schema.Obj? && stronger.Obj? && StandsFor(stronger, schema) && !value.Arr? && !value.Obj?
    ensures KindConforms(Strengthened(env), fuel, stronger, value) ==> KindConforms(env, fuel, schema, value)
  {
    hide Keyword, StandsFor, Strengthen, Less, Units, Count;
    KeywordStandsFor(stronger, schema, "minLength");
    KeywordStandsFor(stronger, schema, "maxLength");
    KeywordStandsFor(stronger, schema, "pattern");
    KeywordStandsFor(stronger, schema, "minimum");
    KeywordStandsFor(stronger, schema, "exclusiveMinimum");
    KeywordStandsFor(stronger, schema, "maximum");
  }

  lemma {:induction false} ArrayFollows(env: Env, fuel: nat, stronger: Json, schema: Json, items: seq<Json>)
    requires env.root.Obj? && Suitable(env.root) && schema.Obj? && stronger.Obj? && StandsFor(stronger, schema)
    ensures KindConforms(Strengthened(env), fuel, stronger, Arr(items)) ==> KindConforms(env, fuel, schema, Arr(items))
    decreases fuel, schema, 2
  {
    hide Keyword, StandsFor, Suitable, Conforms, Strengthened, Less, Count, AllDifferent;
    KeywordStandsFor(stronger, schema, "minItems");
    KeywordStandsFor(stronger, schema, "maxItems");
    KeywordStandsFor(stronger, schema, "uniqueItems");
    KeywordStandsFor(stronger, schema, "items");
    var each := Keyword(schema, "items");
    if each.Some? && IsSchema(each.value) {
      forall i | 0 <= i < |items| ensures Conforms(Strengthened(env), fuel, each.value, items[i]) ==> Conforms(env, fuel, each.value, items[i]) {
        ConformsFollows(env, fuel, each.value, each.value, items[i]);
      }
    }
  }

  lemma {:induction false} ObjectFollows(env: Env, fuel: nat, stronger: Json, schema: Json, fields: seq<Field>)
    requires env.root.Obj? && Suitable(env.root) && schema.Obj? && stronger.Obj? && StandsFor(stronger, schema)
    ensures KindConforms(Strengthened(env), fuel, stronger, Obj(fields)) ==> KindConforms(env, fuel, schema, Obj(fields))
    decreases fuel, schema, 2
  {
    hide Strengthen, RequireOwn, ReferencesToSchemas, Conforms, PropertyConforms, HasRequired;
    if stronger != schema { RequiredFollows(schema, fields); }
    forall i | 0 <= i < |fields|
      ensures PropertyConforms(Strengthened(env), fuel, stronger, fields[i]) ==> PropertyConforms(env, fuel, schema, fields[i])
    {
      PropertyFollows(env, fuel, stronger, schema, fields[i]);
    }
  }

  lemma {:induction false} PropertyFollows(env: Env, fuel: nat, stronger: Json, schema: Json, field: Field)
    requires env.root.Obj? && Suitable(env.root) && schema.Obj? && stronger.Obj? && StandsFor(stronger, schema)
    ensures PropertyConforms(Strengthened(env), fuel, stronger, field) ==> PropertyConforms(env, fuel, schema, field)
    decreases fuel, schema, 1
  {
    hide Keyword, Children, OwnSchema, StandsFor, Suitable, Conforms, Strengthened, AdditionalConforms;
    KeywordStandsFor(stronger, schema, "patternProperties");
    OwnStandsFor(stronger, schema, field.key);
    StrengthenedMatches(env);
    var own, theirs := OwnSchema(schema, field.key), OwnSchema(stronger, field.key);
    if own.Some? { ConformsFollows(env, fuel, theirs.value, own.value, field.value); }
    forall f | f in Children(schema, "patternProperties") && IsSchema(f.value)
      ensures Conforms(Strengthened(env), fuel, f.value, field.value) ==> Conforms(env, fuel, f.value, field.value)
    {
      ConformsFollows(env, fuel, f.value, f.value, field.value);
    }
    AdditionalFollows(env, fuel, stronger, schema, field);
  }

  lemma {:induction false} StrengthenedMatches(env: Env)
    requires Suitable(env.root)
    ensures Strengthened(env).matches == env.matches && env.root.Obj?
  {
  }

  lemma {:induction false} AdditionalFollows(env: Env, fuel: nat, stronger: Json, schema: Json, field: Field)
    requires env.root.Obj? && Suitable(env.root) && schema.Obj? && stronger.Obj? && StandsFor(stronger, schema)
    ensures AdditionalConforms(Strengthened(env), fuel, stronger, field) ==> AdditionalConforms(env, fuel, schema, field)
    decreases fuel, schema, 0
  {
    hide Keyword, StandsFor, Suitable, Conforms, Strengthened;
    KeywordStandsFor(stronger, schema, "additionalProperties");
    var additional := Keyword(schema, "additionalProperties");
    if additional.Some? && IsSchema(additional.value) {
      ConformsFollows(env, fuel, additional.value, additional.value, field.value);
    }
  }

  lemma {:induction false} OwnStandsFor(stronger: Json, schema: Json, key: string)
    requires schema.Obj? && stronger.Obj? && StandsFor(stronger, schema)
    ensures var own, theirs := OwnSchema(schema, key), OwnSchema(stronger, key);
            own.Some? == theirs.Some? && (own.Some? ==> StandsFor(theirs.value, own.value))
  {
    hide Strengthen, RequireOwn, ReferencesToSchemas;
    if stronger == schema {
      var properties := Children(schema, "properties");
      var held := Lookup(properties, key);
      if held.Some? {
        var i :| 0 <= i < |properties| && properties[i] == Field(key, held.value);
        assert properties[i] in properties;
        ChildReferences(schema, "properties", properties[i]);
      }
    } else {
      OwnStrengthened(schema, key);
      PropertyStandsFor(schema, key);
    }
  }

  /** The strengthening of a whole schema accepts nothing the schema would refuse. */
  lemma {:induction false} StrengtheningIsSound(env: Env, fuel: nat, value: Json)
    requires Suitable(env.root)
    ensures Conforms(Strengthened(env), fuel, Strengthen(env.root), value) ==> Conforms(env, fuel, env.root, value)
  {
    ConformsFollows(env, fuel, Strengthen(env.root), env.root, value);
  }

  // ---------------------------------------------------------------- it stays well-formed

  lemma {:induction false} WellFormedFirst(fields: seq<Field>)
    requires fields != []
    ensures WellFormed(Obj(fields)) <==>
            WellFormed(fields[0].value) && WellFormed(Obj(fields[1..])) && Lookup(fields[1..], fields[0].key).None?
  {
    var rest := fields[1..];
    assert forall i | 0 < i < |fields| :: fields[i] == rest[i - 1];
    assert forall i | 0 <= i < |rest| :: rest[i] == fields[i + 1];
  }

  lemma {:induction false} AssignWellFormed(fields: seq<Field>, key: string, value: Json)
    requires WellFormed(Obj(fields)) && WellFormed(value)
    ensures WellFormed(Obj(Assign(fields, key, value)))
  {
    hide Lookup, WellFormed;
    var after := Assign(fields, key, value);
    WellFormedFirst(after);
    if fields == [] {
      NoFields();
    } else {
      WellFormedFirst(fields);
      if fields[0].key != key {
        AssignWellFormed(fields[1..], key, value);
        assert after[1..] == Assign(fields[1..], key, value);
      } else {
        assert after[1..] == fields[1..];
      }
    }
  }

  lemma {:induction false} NoFields()
    ensures WellFormed(Obj([])) && forall key :: Lookup([], key) == None
  {
  }

  lemma {:induction false} StrengthenWellFormed(schema: Json)
    requires schema.Obj? && WellFormed(schema)
    ensures WellFormed(Strengthen(schema))
    decreases schema
  {
    hide Strengthen, StrengthenAll, Assign, FixedNames;
    StrengthenAssigns(schema);
    if HasProperties(schema) {
      var properties := Children(schema, "properties");
      var names, strengthened := FixedNames(properties), StrengthenAll(schema, properties);
      KeywordWellFormed(schema, "properties");
      forall i | 0 <= i < |properties| ensures WellFormed(strengthened[i].value) {
        assert properties[i] in properties;
        if IsObjectSchema(properties[i].value) { StrengthenWellFormed(properties[i].value); }
      }
      if names != [] { AssignWellFormed(schema.fields, "required", Arr(names)); }
      var required := if names != [] then Assign(schema.fields, "required", Arr(names)) else schema.fields;
      AssignWellFormed(required, "properties", Obj(strengthened));
    }
  }

  // ---------------------------------------------------------------- what the stronger schema asks

  predicate Refers(schema: Json)
  {
    Keyword(schema, "$ref").Some? && Keyword(schema, "$ref").value.Str?
  }

  /** An object has every fixed property, and so do the objects nested under object schemas. */
  ghost predicate SetsAll(schema: Json, value: Json)
    decreases schema
  {
    !Refers(schema) && HasProperties(schema) && value.Obj? ==>
      && (forall name | Str(name) in FixedNames(Children(schema, "properties")) :: Lookup(value.fields, name).Some?)
      && (forall i | 0 <= i < |value.fields| ::
            var own := OwnSchema(schema, value.fields[i].key);
            own.Some? && IsObjectSchema(own.value) ==> SetsAll(own.value, value.fields[i].value))
  }

  lemma {:induction false} RequiresFixed(schema: Json, fields: seq<Field>, name: string)
    requires schema.Obj? && HasProperties(schema) && HasRequired(Strengthen(schema), fields)
    requires Str(name) in FixedNames(Children(schema, "properties"))
    ensures Lookup(fields, name).Some?
  {
    hide Strengthen, FixedNames, Lookup;
    KeywordStrengthened(schema, "required");
    var names := FixedNames(Children(schema, "properties"));
    var i :| 0 <= i < |names| && names[i] == Str(name);
  }

  /** A configuration the stronger schema accepts is complete, at every level. */
  lemma {:induction false} StrengthenedIsComplete(env: Env, fuel: nat, schema: Json, value: Json)
    requires schema.Obj? && Conforms(env, fuel, Strengthen(schema), value)
    ensures SetsAll(schema, value)
    decreases schema
  {
    hide Strengthen, FixedNames, OwnSchema, HasRequired, AnyOfConforms, ConstConforms;
    KeywordStrengthened(schema, "$ref");
    if !Refers(schema) && HasProperties(schema) && value.Obj? {
      forall name | Str(name) in FixedNames(Children(schema, "properties")) ensures Lookup(value.fields, name).Some? {
        RequiresFixed(schema, value.fields, name);
      }
      forall i | 0 <= i < |value.fields| && OwnSchema(schema, value.fields[i].key).Some? && IsObjectSchema(OwnSchema(schema, value.fields[i].key).value)
        ensures SetsAll(OwnSchema(schema, value.fields[i].key).value, value.fields[i].value)
      {
        var field := value.fields[i];
        assert PropertyConforms(env, fuel, Strengthen(schema), field);
        OwnStrengthened(schema, field.key);
        StrengthenedIsComplete(env, fuel, OwnSchema(schema, field.key).value, field.value);
      }
    }
  }

  // ---------------------------------------------------------------- where it does not strengthen

  function WithNames(names: seq<Json>): (fields: seq<Field>)
    requires forall i | 0 <= i < |names| :: names[i].Str?
    ensures forall name :: Lookup(fields, name).Some? <==> Str(name) in names
  {
    if names == [] then [] else [Field(names[0].s, Null)] + WithNames(names[1..])
  }

  /** The rewritten `required` implies the written one exactly when that one lists own properties
    * other than `$schema`, or stands unchanged. */
  lemma {:induction false} RequiredFollowsExactly(schema: Json)
    requires schema.Obj?
    ensures (forall fields :: HasRequired(Strengthen(schema), fields) ==> HasRequired(schema, fields)) <==> RequiresOwn(schema)
  {
    hide Strengthen, FixedNames, Lookup;
    KeywordStrengthened(schema, "required");
    KeywordStrengthened(schema, "");
    var names := FixedNames(Children(schema, "properties"));
    if forall fields :: HasRequired(Strengthen(schema), fields) ==> HasRequired(schema, fields) {
      var fields := WithNames(names);
      if names != [] {
        assert HasRequired(Strengthen(schema), fields);
        assert HasRequired(schema, fields);
      }
    }
  }

  /** A reference that takes a `properties` object for a schema sees its rewriting. Here a property
    * named `const` reads as a constant, and gains a key. */
  const INNER := Obj([Field("type", Str("object")), Field("properties", Obj([Field("a", Bool(true))]))])
  const REWRITTEN := Obj([Field("type", Str("object")), Field("properties", Obj([Field("a", Bool(true))])), Field("required", Arr([Str("a")]))])
  const ODD := Obj([Field("$ref", Str("#/properties")), Field("properties", Obj([Field("const", INNER)]))])

  lemma {:induction false} InnerAssigned(properties: seq<Field>)
    requires properties == [Field("a", Bool(true))]
    ensures Assign(Assign(INNER.fields, "required", Arr([Str("a")])), "properties", Obj(properties)) == REWRITTEN.fields
  {
    var fields, required := INNER.fields, REWRITTEN.fields;
    assert fields[1..] == [fields[1]] && fields[1..][1..] == [];
    assert Assign([], "required", Arr([Str("a")])) == [Field("required", Arr([Str("a")]))];
    assert Assign(fields[1..], "required", Arr([Str("a")])) == required[1..];
    assert Assign(fields, "required", Arr([Str("a")])) == required;
    assert required[1..][0] == fields[1];
    assert Assign(required[1..], "properties", Obj(properties)) == required[1..];
  }

  lemma {:induction false} InnerRewritten()
    ensures IsObjectSchema(INNER) && Strengthen(INNER) == REWRITTEN
  {
    hide Assign;
    var properties := [Field("a", Bool(true))];
    assert properties[1..] == [];
    var fields := INNER.fields;
    assert fields[1..] == [fields[1]] && fields[1..][1..] == [];
    assert Lookup(fields[1..], "properties") == Some(Obj(properties));
    assert Children(INNER, "properties") == properties;
    assert FixedNames(properties) == [Str("a")];
    assert StrengthenAll(INNER, properties) == properties;
    InnerAssigned(properties);
  }

  predicate Plain(s: string) { forall i | 0 <= i < |s| :: s[i] != '/' && s[i] != '~' }

  lemma {:induction false} PlainSplit(s: string)
    requires Plain(s)
    ensures Split(s, '/') == [s]
  {
    if s != [] {
      PlainSplit(s[1..]);
      assert [s[0]] + s[1..] == s && [s[1..]][1..] == [];
    }
  }

  lemma {:induction false} PlainUnchanged(s: string, b: char, c: char)
    requires Plain(s)
    ensures ReplaceAll(s, '~', b, c) == s
  {
    if |s| >= 2 { PlainUnchanged(s[1..], b, c); }
  }

  /** A reference to a keyword of the root. */
  lemma {:induction false} ResolveKeyword(root: Json, name: string)
    requires root.Obj? && Plain(name)
    ensures Resolve(root, "#/" + name) ==
            if Keyword(root, name).Some? && IsSchema(Keyword(root, name).value) then Keyword(root, name) else None
  {
    hide Split, ReplaceAll, Lookup, Plain;
    var reference := "#/" + name;
    assert reference[2..] == name;
    PlainSplit(name);
    PlainUnchanged(name, '1', '/');
    PlainUnchanged(name, '0', '~');
    assert [name][1..] == [];
    assert Walk(Some(root), [name]) == Walk(Lookup(root.fields, name), []);
  }

  lemma {:induction false} ConstOnly(env: Env, fuel: nat, constant: Json, value: Json)
    ensures Conforms(env, fuel, Obj([Field("const", constant)]), value) <==> Same(value, constant)
  {
    hide Same, Less, Units, Count, Keyword;
    var schema := Obj([Field("const", constant)]);
    forall name ensures Keyword(schema, name) == if name == "const" then Some(constant) else None {
      OnlyKey("const", constant, name);
    }
    NoKindKeywords(env, fuel, schema, value);
  }

  lemma {:induction false} OnlyKey(key: string, held: Json, name: string)
    ensures Keyword(Obj([Field(key, held)]), name) == if name == key then Some(held) else None
  {
    assert [Field(key, held)][1..] == [];
  }

  lemma {:induction false} NoKindKeywords(env: Env, fuel: nat, schema: Json, value: Json)
    requires schema.Obj? && forall name | name != "const" :: Keyword(schema, name) == None
    ensures KindConforms(env, fuel, schema, value)
  {
    hide Keyword, Less, Units, Count, Conforms, HasRequired;
    assert forall fields :: HasRequired(schema, fields) by { NothingRequired(schema); }
    forall field ensures PropertyConforms(env, fuel, schema, field) {
      assert Children(schema, "properties") == [] && Children(schema, "patternProperties") == [];
      assert AdditionalConforms(env, fuel, schema, field);
    }
    match value
    case Str(s) => assert Limit(schema, "minLength") == None && Limit(schema, "maxLength") == None;
    case Num(n) => assert Limit(schema, "minimum") == None && Limit(schema, "exclusiveMinimum") == None && Limit(schema, "maximum") == None;
    case Arr(items) => assert Limit(schema, "minItems") == None && Limit(schema, "maxItems") == None;
    case _ =>
  }

  lemma {:induction false} NothingRequired(schema: Json)
    requires Keyword(schema, "required") == None
    ensures forall fields :: HasRequired(schema, fields)
  {
  }

  lemma {:induction false} MeaningKeys(v: Json, fields: seq<Field>, key: string)
    requires v.Obj? && forall f | f in fields :: f in v.fields
    ensures key in FieldsMeaning(v, fields) <==> Lookup(fields, key).Some?
  {
    hide MeaningOf;
    if fields != [] {
      assert forall f | f in fields[1..] :: f in fields;
      assert fields[0] in fields;
      MeaningKeys(v, fields[1..], key);
    }
  }

  lemma {:induction false} OddRewritten()
    ensures Keyword(Strengthen(ODD), "$ref") == Keyword(ODD, "$ref") == Some(Str("#/" + "properties"))
    ensures Keyword(ODD, "properties") == Some(Obj([Field("const", INNER)]))
    ensures Keyword(Strengthen(ODD), "properties") == Some(Obj([Field("const", REWRITTEN)]))
  {
    hide Strengthen, FixedNames;
    var held := [Field("const", INNER)];
    var rest := [Field("properties", Obj(held))];
    assert ODD.fields[1..] == rest && rest[1..] == [];
    assert Lookup(rest, "properties") == Some(Obj(held));
    assert "#/properties" == "#/" + "properties";
    assert Keyword(ODD, "properties") == Some(Obj(held)) && Keyword(ODD, "$ref") == Some(Str("#/" + "properties"));
    KeywordStrengthened(ODD, "$ref");
    KeywordStrengthened(ODD, "properties");
    InnerRewritten();
    assert Children(ODD, "properties") == held;
    assert StrengthenAll(ODD, held) == [Field("const", REWRITTEN)];
  }

  lemma {:induction false} InnerDiffers()
    ensures Same(REWRITTEN, REWRITTEN) && !Same(REWRITTEN, INNER)
  {
    hide FieldsMeaning, Lookup;
    MeaningKeys(REWRITTEN, REWRITTEN.fields, "required");
    MeaningKeys(INNER, INNER.fields, "required");
    assert REWRITTEN.fields[2].key == "required" && forall i | 0 <= i < |INNER.fields| :: INNER.fields[i].key != "required";
  }

  lemma {:induction false} ReferenceIntoProperties(env: Env, fuel: nat)
    requires env.root == ODD && fuel > 0
    ensures RequireOwn(ODD)
    ensures Conforms(Strengthened(env), fuel, Strengthen(ODD), REWRITTEN) && !Conforms(env, fuel, ODD, REWRITTEN)
  {
    hide Strengthen, FixedNames, Keyword, Same, Resolve, AnyOfConforms, ConstConforms, KindConforms, RequireOwn;
    OddRewritten();
    ResolveKeyword(ODD, "properties");
    ResolveKeyword(Strengthen(ODD), "properties");
    InnerDiffers();
    ConstOnly(env, fuel - 1, INNER, REWRITTEN);
    ConstOnly(Strengthened(env), fuel - 1, REWRITTEN, REWRITTEN);
    OddRequiresOwn();
  }

  lemma {:induction false} OddRequiresOwn()
    ensures RequireOwn(ODD)
  {
    hide FixedNames, Strengthen, Keyword;
    OddRewritten();
    OddKeywords();
    assert RequiresOwn(ODD) && RequiresOwn(INNER);
    assert Children(ODD, "properties") == [Field("const", INNER)] && Children(INNER, "properties") == [Field("a", Bool(true))];
    assert RequireOwn(INNER);
  }

  lemma {:induction false} OddKeywords()
    ensures Keyword(ODD, "required") == None && Keyword(INNER, "required") == None
    ensures Keyword(INNER, "properties") == Some(Obj([Field("a", Bool(true))]))
  {
    assert ODD.fields[1..] == [ODD.fields[1]] && ODD.fields[1..][1..] == [];
    assert INNER.fields[1..] == [INNER.fields[1]] && INNER.fields[1..][1..] == [];
  }
}
