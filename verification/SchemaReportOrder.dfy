/** The order of a report: src/schema-validator.ts, lines 109-273. Errors about the value itself come first,
  * keyword by keyword, then those about its items or properties in their order; and an early stop reports
  * the first. */
module SchemaReportOrder {
  import opened Json
  import opened SchemaConformance
  import opened SchemaEvaluation
  import opened SchemaReports
  import opened StableJson
  import opened StableJsonCode
  import opened Wrappers

  /** The order in which keywords are looked at. */
  const ORDER := ["anyOf", "const", "enum", "type", "minLength", "maxLength", "pattern", "minimum", "exclusiveMinimum", "maximum",
                  "minItems", "maxItems", "uniqueItems", "required"]

  function IndexOf(names: seq<string>, name: string): (index: nat)
    ensures index <= |names| && (forall i | 0 <= i < index :: names[i] != name) && (index < |names| ==> names[index] == name)
  {
    if names == [] || names[0] == name then 0 else 1 + IndexOf(names[1..], name)
  }

  function Names(fields: seq<Field>): seq<string> { seq(|fields|, i requires 0 <= i < |fields| => fields[i].key) }

  /** Of which part of the value the error is: none, an item, or a property, which may be one too many. */
  function Part(value: Json, path: Path, e: SchemaError): Option<nat>
  {
    var names := if value.Obj? then Names(value.fields) else [];
    if path < e.path then
      match e.path[|path|]
      case Index(i) => Some(i)
      case Property(name) => Some(IndexOf(names, name))
    else if e.keyword == "additionalProperties" && e.detail.Str? then Some(IndexOf(names, e.detail.s))
    else None
  }

  function Place(value: Json, path: Path, e: SchemaError): nat
  {
    match Part(value, path, e)
    case Some(i) => |ORDER| + 1 + i
    case None => IndexOf(ORDER, e.keyword)
  }

  ghost predicate InOrder(errors: seq<SchemaError>, value: Json, path: Path)
  {
    forall i, j | 0 <= i < j < |errors| :: Place(value, path, errors[i]) <= Place(value, path, errors[j])
  }

  /** All errors are in order and between two places. */
  ghost predicate Within(run: Run, value: Json, path: Path, low: nat, high: nat)
  {
    !run.threw ==>
      InOrder(run.errors, value, path) && forall i | 0 <= i < |run.errors| :: low <= Place(value, path, run.errors[i]) <= high
  }

  lemma ThenWithin(first: Run, rest: Run, value: Json, path: Path, low: nat, middle: nat, high: nat)
    requires low <= middle <= high && Within(first, value, path, low, middle) && Within(rest, value, path, middle, high)
    ensures Within(Then(true, first, rest), value, path, low, high)
  {
    hide Place;
  }

  lemma Widen(run: Run, value: Json, path: Path, low: nat, high: nat, lower: nat, higher: nat)
    requires Within(run, value, path, low, high) && lower <= low && high <= higher
    ensures Within(run, value, path, lower, higher)
  {
    hide Place;
  }

  lemma OneWithin(run: Run, value: Json, path: Path, place: nat)
    requires |run.errors| <= 1 && (run.errors != [] ==> Place(value, path, run.errors[0]) == place)
    ensures Within(run, value, path, place, place)
  {
    hide Place;
  }

  lemma OrderIs()
    ensures |ORDER| == 14
    ensures forall i, j | 0 <= i < j < |ORDER| :: ORDER[i] != ORDER[j]
    ensures "additionalProperties" !in ORDER
  {
    Lengths();
    forall i, j | 0 <= i < j < |ORDER| ensures ORDER[i] != ORDER[j] {
      if |ORDER[i]| == |ORDER[j]| { assert ORDER[i][2] != ORDER[j][2] || ORDER[i][1] != ORDER[j][1] || ORDER[i][0] != ORDER[j][0] || ORDER[i][3] != ORDER[j][3]; }
    }
    forall i | 0 <= i < |ORDER| ensures ORDER[i] != "additionalProperties" { assert |ORDER[i]| < 20; }
  }

  lemma Lengths()
    ensures forall i | 0 <= i < |ORDER| :: 4 <= |ORDER[i]| < 20
  {
  }

  lemma RankIs(i: nat, e: SchemaError, value: Json, path: Path)
    requires i < |ORDER| && e.path == path && e.keyword == ORDER[i]
    ensures Place(value, path, e) == i
  {
    OrderIs();
  }

  // ---------------------------------------------------------------- errors about the value itself

  lemma LimitWithin(schema: Json, i: nat, breaks: Number -> bool, value: Json, path: Path)
    requires i < |ORDER|
    ensures Within(LimitRun(schema, ORDER[i], breaks, path), value, path, i, i)
  {
    hide Keyword, Place;
    var run := LimitRun(schema, ORDER[i], breaks, path);
    if run.errors != [] { RankIs(i, run.errors[0], value, path); }
    OneWithin(run, value, path, i);
  }

  lemma FailWithin(i: nat, detail: Json, value: Json, path: Path)
    requires i < |ORDER|
    ensures Within(Fail(path, ORDER[i], detail), value, path, i, i) && Within(OK, value, path, i, i)
  {
    hide Place;
    RankIs(i, SchemaError(path, ORDER[i], detail), value, path);
  }

  lemma StringWithin(env: Env, schema: Json, s: string, path: Path)
    ensures Within(StringRun(env, true, schema, s, path), Str(s), path, 4, 6)
  {
    hide Keyword, Within, LimitRun, Less, Count, Units;
    var shorter, longer := limit => Less(Count(Units(s)), limit), limit => Less(limit, Count(Units(s)));
    LimitWithin(schema, 4, shorter, Str(s), path);
    LimitWithin(schema, 5, longer, Str(s), path);
    var pattern := Keyword(schema, "pattern");
    FailWithin(6, if pattern.Some? then pattern.value else Null, Str(s), path);
    var last := Then(true, LimitRun(schema, "maxLength", longer, path), PatternRun(env, schema, s, path));
    Widen(PatternRun(env, schema, s, path), Str(s), path, 6, 6, 5, 6);
    ThenWithin(LimitRun(schema, "maxLength", longer, path), PatternRun(env, schema, s, path), Str(s), path, 5, 5, 6);
    Widen(last, Str(s), path, 5, 6, 4, 6);
    ThenWithin(LimitRun(schema, "minLength", shorter, path), last, Str(s), path, 4, 4, 6);
  }

  lemma NumberWithin(schema: Json, n: Number, path: Path)
    ensures Within(NumberRun(true, schema, n, path), Num(n), path, 7, 9)
  {
    hide Keyword, Within, LimitRun, Less;
    var below, least, above := limit => Less(n, limit), limit => !Less(limit, n), limit => Less(limit, n);
    LimitWithin(schema, 7, below, Num(n), path);
    LimitWithin(schema, 8, least, Num(n), path);
    LimitWithin(schema, 9, above, Num(n), path);
    var last := LimitRun(schema, "maximum", above, path);
    Widen(last, Num(n), path, 9, 9, 8, 9);
    ThenWithin(LimitRun(schema, "exclusiveMinimum", least, path), last, Num(n), path, 8, 8, 9);
    last := Then(true, LimitRun(schema, "exclusiveMinimum", least, path), last);
    Widen(last, Num(n), path, 8, 9, 7, 9);
    ThenWithin(LimitRun(schema, "minimum", below, path), last, Num(n), path, 7, 7, 9);
  }

  lemma SizeWithin(env: Env, schema: Json, items: seq<Json>, path: Path)
    ensures Within(SizeRun(env, true, schema, items, path), Arr(items), path, 10, 12)
  {
    hide Keyword, Within, LimitRun, Less, Count, HasDuplicates;
    var v := Arr(items);
    var fewer, more := limit => Less(Count(|items|), limit), limit => Less(limit, Count(|items|));
    LimitWithin(schema, 10, fewer, v, path);
    LimitWithin(schema, 11, more, v, path);
    FailWithin(12, Null, v, path);
    var last := if Keyword(schema, "uniqueItems") == Some(Bool(true)) && HasDuplicates(env.show, items) then Fail(path, "uniqueItems", Null) else OK;
    Widen(last, v, path, 12, 12, 11, 12);
    ThenWithin(LimitRun(schema, "maxItems", more, path), last, v, path, 11, 11, 12);
    last := Then(true, LimitRun(schema, "maxItems", more, path), last);
    Widen(last, v, path, 11, 12, 10, 12);
    ThenWithin(LimitRun(schema, "minItems", fewer, path), last, v, path, 10, 10, 12);
  }

  lemma {:induction false} RequiredWithin(required: seq<Json>, fields: seq<Field>, value: Json, path: Path)
    ensures Within(RequiredRun(true, required, fields, path), value, path, 13, 13)
  {
    hide Within;
    FailWithin(13, if required == [] then Null else required[0], value, path);
    if required != [] {
      RequiredWithin(required[1..], fields, value, path);
      var first := if required[0].Str? && Lookup(fields, required[0].s).None? then Fail(path, "required", required[0]) else OK;
      ThenWithin(first, RequiredRun(true, required[1..], fields, path), value, path, 13, 13, 13);
    }
  }

  lemma RequiredKeywordWithin(schema: Json, fields: seq<Field>, value: Json, path: Path)
    ensures Within(RequiredKeyword(true, schema, fields, path), value, path, 13, 13)
  {
    hide Within, RequiredRun, Keyword;
    FailWithin(13, Null, value, path);
    var required := Keyword(schema, "required");
    if required.Some? && required.value.Arr? { RequiredWithin(required.value.items, fields, value, path); }
  }

  lemma ConstWithin(env: Env, schema: Json, value: Json, path: Path)
    ensures Within(ConstRun(env, schema, value, path), value, path, 1, 2)
  {
    hide Within, Keyword, JsonEqual;
    var run := ConstRun(env, schema, value, path);
    var constant, choices := Keyword(schema, "const"), Keyword(schema, "enum");
    FailWithin(1, if constant.Some? then constant.value else Null, value, path);
    FailWithin(2, if choices.Some? then choices.value else Null, value, path);
    if Within(run, value, path, 1, 1) { Widen(run, value, path, 1, 1, 1, 2); } else { Widen(run, value, path, 2, 2, 1, 2); }
  }

  lemma AnyOfWithin(env: Env, fuel: nat, schema: Json, value: Json, path: Path)
    requires schema.Obj?
    ensures Within(AnyOfKeyword(env, true, fuel, schema, value, path), value, path, 0, 0)
  {
    hide Place, AnyOfRun, Keyword;
    var anyOf := Keyword(schema, "anyOf");
    if anyOf.Some? && anyOf.value.Arr? {
      AnyOfShape(env, fuel, schema, anyOf.value.items, value, path);
      RankIs(0, SchemaError(path, "anyOf", Null), value, path);
    }
  }

  // ---------------------------------------------------------------- errors about its parts

  /** All errors about one part have its place. */
  lemma {:induction false} PartWithin(env: Env, fuel: nat, schema: Json, part: Json, value: Json, path: Path, segment: Segment, place: nat)
    requires IsSchema(schema) && Sane(env, schema) && WellFormed(part)
    requires forall e: SchemaError | path + [segment] <= e.path :: Place(value, path, e) == place
    ensures Within(Eval(env, true, fuel, schema, part, path + [segment]), value, path, place, place)
  {
    hide Place, Eval, Sane, WellFormed, Complaint, Rest;
    var run := Eval(env, true, fuel, schema, part, path + [segment]);
    forall i | 0 <= i < |run.errors| && !run.threw ensures Place(value, path, run.errors[i]) == place {
      ReportIsExact(env, fuel, schema, part, path + [segment], run.errors[i]);
    }
  }

  lemma ItemPlace(items: seq<Json>, path: Path, i: nat, e: SchemaError)
    requires path + [Index(i)] <= e.path
    ensures Place(Arr(items), path, e) == |ORDER| + 1 + i
  {
    Deeper(path, Index(i), e.path);
  }

  lemma Deeper(path: Path, segment: Segment, whole: Path)
    requires path + [segment] <= whole
    ensures path < whole && whole[|path|] == segment
  {
    assert (path + [segment])[|path|] == whole[|path|];
    assert whole[..|path|] == (path + [segment])[..|path|] == path;
  }

  lemma {:induction false} ItemsWithin(env: Env, fuel: nat, each: Json, items: seq<Json>, index: nat, path: Path)
    requires IsSchema(each) && index <= |items| && Sane(env, each) && forall i | 0 <= i < |items| :: WellFormed(items[i])
    ensures Within(ItemsRun(env, true, fuel, each, items, index, path), Arr(items), path, |ORDER| + 1 + index, |ORDER| + 1 + |items|)
    decreases |items| - index
  {
    hide Within, Place, Eval, Sane, WellFormed;
    var place := |ORDER| + 1 + index;
    if index == |items| {
      NothingWithin(Arr(items), path, place, place);
    } else {
      forall e: SchemaError | path + [Index(index)] <= e.path ensures Place(Arr(items), path, e) == place { ItemPlace(items, path, index, e); }
      var first, rest := Eval(env, true, fuel, each, items[index], path + [Index(index)]), ItemsRun(env, true, fuel, each, items, index + 1, path);
      PartWithin(env, fuel, each, items[index], Arr(items), path, Index(index), place);
      ItemsWithin(env, fuel, each, items, index + 1, path);
      Widen(rest, Arr(items), path, place + 1, |ORDER| + 1 + |items|, place, |ORDER| + 1 + |items|);
      ThenWithin(first, rest, Arr(items), path, place, place, |ORDER| + 1 + |items|);
    }
  }

  lemma NothingWithin(value: Json, path: Path, low: nat, high: nat)
    ensures Within(OK, value, path, low, high)
  {
  }

  lemma PropertyPlace(value: Json, path: Path, i: nat, e: SchemaError)
    requires value.Obj? && DistinctKeys(value.fields) && i < |value.fields|
    requires path + [Property(value.fields[i].key)] <= e.path || (e.path == path && e.keyword == "additionalProperties" && e.detail == Str(value.fields[i].key))
    ensures Place(value, path, e) == |ORDER| + 1 + i
  {
    if path + [Property(value.fields[i].key)] <= e.path { Deeper(path, Property(value.fields[i].key), e.path); }
    var names := Names(value.fields);
    var found := IndexOf(names, names[i]);
    assert found < |names| && names[found] == names[i];
  }

  lemma {:induction false} PropertyWithin(env: Env, fuel: nat, schema: Json, value: Json, i: nat, path: Path)
    requires schema.Obj? && Sane(env, schema) && WellFormed(value) && value.Obj? && i < |value.fields|
    requires forall f | f in Children(schema, "patternProperties") :: IsSchema(f.value)
    ensures Within(PropertyRun(env, true, fuel, schema, value.fields[i], path), value, path, |ORDER| + 1 + i, |ORDER| + 1 + i)
  {
    hide Place, PropertyRun, Sane, WellFormed, FieldComplaint;
    var run, place := PropertyRun(env, true, fuel, schema, value.fields[i], path), |ORDER| + 1 + i;
    forall k | 0 <= k < |run.errors| && !run.threw ensures Place(value, path, run.errors[k]) == place {
      FieldsWellFormed(value);
      KeysDistinct(value);
      PropertyList(env, fuel, schema, value.fields[i], path, run.errors[k]);
      FieldPlace(env, fuel, schema, value.fields[i], path, run.errors[k]);
      PropertyPlace(value, path, i, run.errors[k]);
    }
  }

  lemma KeysDistinct(value: Json)
    requires value.Obj? && WellFormed(value)
    ensures DistinctKeys(value.fields)
  {
  }

  lemma FieldPlace(env: Env, fuel: nat, schema: Json, f: Field, path: Path, e: SchemaError)
    requires schema.Obj? && FieldComplaint(env, fuel, schema, f, path, e)
    ensures path + [Property(f.key)] <= e.path || (e.path == path && e.keyword == "additionalProperties" && e.detail == Str(f.key))
  {
    hide Complaint, Unclaimed, PatternComplaint;
    OneDown(path, Property(f.key), e);
    assert Rest(path, e) == [] ==> e.path == path;
  }

  lemma {:induction false} PropertiesWithin(env: Env, fuel: nat, schema: Json, value: Json, index: nat, path: Path)
    requires schema.Obj? && Sane(env, schema) && WellFormed(value) && value.Obj? && index <= |value.fields|
    requires forall f | f in Children(schema, "patternProperties") :: IsSchema(f.value)
    ensures Within(PropertiesRun(env, true, fuel, schema, value.fields[index..], path), value, path, |ORDER| + 1 + index, |ORDER| + 1 + |value.fields|)
    decreases |value.fields| - index
  {
    hide Within, Place, PropertyRun, Sane, WellFormed, Children;
    var place, end := |ORDER| + 1 + index, |ORDER| + 1 + |value.fields|;
    if index == |value.fields| {
      NothingWithin(value, path, place, place);
    } else {
      assert value.fields[index..][0] == value.fields[index] && value.fields[index..][1..] == value.fields[index + 1..];
      var first, rest := PropertyRun(env, true, fuel, schema, value.fields[index], path), PropertiesRun(env, true, fuel, schema, value.fields[index + 1..], path);
      PropertyWithin(env, fuel, schema, value, index, path);
      PropertiesWithin(env, fuel, schema, value, index + 1, path);
      Widen(rest, value, path, place + 1, end, place, end);
      ThenWithin(first, rest, value, path, place, place, end);
    }
  }

  // ---------------------------------------------------------------- the whole report

  function Last(value: Json): nat
  {
    match value
    case Arr(items) => |ORDER| + 1 + |items|
    case Obj(fields) => |ORDER| + 1 + |fields|
    case _ => |ORDER|
  }

  lemma {:induction false} ArrayWithin(env: Env, fuel: nat, schema: Json, value: Json, path: Path)
    requires schema.Obj? && Sane(env, schema) && WellFormed(value) && value.Arr?
    ensures Within(ArrayRun(env, true, fuel, schema, value.items, path), value, path, 4, Last(value))
  {
    hide Within, Place, SizeRun, ItemsRun, Keyword, NumberText;
    var each, end := Keyword(schema, "items"), Last(value);
    KeywordWellFormed(schema, "items");
    SizeWithin(env, schema, value.items, path);
    var rest := if each.Some? && IsSchema(each.value) then ItemsRun(env, true, fuel, each.value, value.items, 0, path) else OK;
    if each.Some? && IsSchema(each.value) { ItemsWithin(env, fuel, each.value, value.items, 0, path); } else { NothingWithin(value, path, 15, end); }
    Widen(rest, value, path, 15, end, 12, end);
    Widen(SizeRun(env, true, schema, value.items, path), value, path, 10, 12, 4, 12);
    ThenWithin(SizeRun(env, true, schema, value.items, path), rest, value, path, 4, 12, end);
  }

  lemma {:induction false} ObjectWithin(env: Env, fuel: nat, schema: Json, value: Json, path: Path)
    requires schema.Obj? && Sane(env, schema) && WellFormed(value) && value.Obj?
    ensures Within(ObjectRun(env, true, fuel, schema, value.fields, path), value, path, 4, Last(value))
  {
    hide Within, Place, RequiredKeyword, PropertiesRun, Children, Sane, WellFormed;
    var end := Last(value);
    var first := RequiredKeyword(true, schema, value.fields, path);
    RequiredKeywordWithin(schema, value.fields, value, path);
    Widen(first, value, path, 13, 13, 4, 13);
    if forall f | f in Children(schema, "patternProperties") :: IsSchema(f.value) {
      var rest := PropertiesRun(env, true, fuel, schema, value.fields, path);
      assert value.fields[0..] == value.fields;
      PropertiesWithin(env, fuel, schema, value, 0, path);
      Widen(rest, value, path, 15, end, 13, end);
      ThenWithin(first, rest, value, path, 4, 13, end);
    } else {
      ThrownWithin(first, value, path, end);
    }
  }

  lemma ThrownWithin(first: Run, value: Json, path: Path, end: nat)
    ensures Within(Then(true, first, THROW), value, path, 4, end)
  {
  }

  lemma {:induction false} KindWithin(env: Env, fuel: nat, schema: Json, value: Json, path: Path)
    requires schema.Obj? && Sane(env, schema) && WellFormed(value)
    ensures Within(KindRun(env, true, fuel, schema, value, path), value, path, 4, Last(value))
  {
    hide Within, Place, StringRun, NumberRun, ArrayRun, ObjectRun, Sane, WellFormed;
    match value
    case Str(s) =>
      StringWithin(env, schema, s, path);
      Widen(StringRun(env, true, schema, s, path), value, path, 4, 6, 4, Last(value));
    case Num(n) =>
      NumberWithin(schema, n, path);
      Widen(NumberRun(true, schema, n, path), value, path, 7, 9, 4, Last(value));
    case Arr(_) => ArrayWithin(env, fuel, schema, value, path);
    case Obj(_) => ObjectWithin(env, fuel, schema, value, path);
    case _ => NothingWithin(value, path, 4, Last(value));
  }

  lemma {:induction false} SiblingsWithin(env: Env, fuel: nat, schema: Json, value: Json, path: Path)
    requires schema.Obj? && Sane(env, schema) && WellFormed(value)
    ensures Within(SiblingsRun(env, true, fuel, schema, value, path), value, path, 0, Last(value))
  {
    hide Within, Place, AnyOfKeyword, ConstRun, KindRun, Sane, WellFormed, Keyword, MatchesType;
    var end, declared := Last(value), Keyword(schema, "type");
    var typed := TypedRun(env, true, fuel, schema, value, path);
    AnyOfWithin(env, fuel, schema, value, path);
    ConstWithin(env, schema, value, path);
    FailWithin(3, if declared.Some? then declared.value else Null, value, path);
    KindWithin(env, fuel, schema, value, path);
    if declared.Some? && !MatchesType(declared.value, value) {
      Widen(typed, value, path, 3, 3, 2, end);
    } else {
      Widen(typed, value, path, 4, end, 2, end);
    }
    ThenWithin(ConstRun(env, schema, value, path), typed, value, path, 1, 2, end);
    var rest := Then(true, ConstRun(env, schema, value, path), typed);
    Widen(rest, value, path, 1, end, 0, end);
    ThenWithin(AnyOfKeyword(env, true, fuel, schema, value, path), rest, value, path, 0, 0, end);
  }

  /** For every schema and value, a full report that did not throw is in order: first the value itself, in
    * the order of the keywords, then its parts in theirs. */
  lemma {:induction false} ReportIsOrdered(env: Env, fuel: nat, schema: Json, value: Json, path: Path)
    requires IsSchema(schema) && Sane(env, schema) && WellFormed(value)
    ensures var run := Eval(env, true, fuel, schema, value, path); !run.threw ==> InOrder(run.errors, value, path)
    decreases fuel
  {
    hide SiblingsRun, Sane, WellFormed, Place;
    if schema.Obj? {
      var ref := Keyword(schema, "$ref");
      if ref.Some? && ref.value.Str? {
        SaneTarget(env, schema, ref.value.s);
        if Resolve(env.root, ref.value.s).Some? && fuel > 0 {
          ReportIsOrdered(env, fuel - 1, Resolve(env.root, ref.value.s).value, value, path);
        }
      } else {
        SiblingsWithin(env, fuel, schema, value, path);
      }
    }
  }
}
