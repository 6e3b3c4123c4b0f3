/** References that lead back to a schema: src/schema-validator.ts, lines 103-139 and 282-301. A schema may
  * refer to itself from within its properties or items, since each turn goes one level down in the
  * value. It must not pass the same value on to itself. */
module SchemaCycles {
  import opened Json
  import opened SchemaConformance
  import opened SchemaEvaluation
  import opened SchemaGrounded
  import opened SchemaModes
  import opened Wrappers

  predicate IsReference(schema: Json)
  {
    match Keyword(schema, "$ref")
    case Some(Str(_)) => true
    case _ => false
  }

  function Target(env: Env, schema: Json): Option<Json>
    requires IsReference(schema)
  {
    Resolve(env.root, Keyword(schema, "$ref").value.s)
  }

  /** Schema `a` has `b` look at the very value it was given itself. */
  predicate Passes(env: Env, a: Json, b: Json)
  {
    if IsReference(a) then Target(env, a) == Some(b) else b in Candidates(a)
  }

  /** Schema `a` has `b` look at something inside the value. */
  predicate Enters(a: Json, b: Json)
  {
    && !IsReference(a) && IsSchema(b)
    && (Keyword(a, "items") == Some(b) || (Keyword(a, "additionalProperties") == Some(b) && b.Obj?)
        || Among(Children(a, "properties"), b) || Among(Children(a, "patternProperties"), b))
  }

  predicate Among(fields: seq<Field>, schema: Json) { exists f :: f in fields && f.value == schema }

  /** Nothing the schema names is missing. */
  predicate Complete(env: Env, schema: Json)
  {
    if IsReference(schema) then Target(env, schema).Some?
    else (forall c | c in Candidates(schema) :: IsSchema(c)) && forall f | f in Children(schema, "patternProperties") :: IsSchema(f.value)
  }

  /** Schemas with nothing missing, and with everything they lead to. */
  ghost predicate Closed(env: Env, schemas: set<Json>)
  {
    && (forall a | a in schemas :: IsSchema(a) && Complete(env, a))
    && (forall a, b | a in schemas && Passes(env, a, b) :: b in schemas)
    && (forall a, b | a in schemas && Enters(a, b) :: b in schemas)
  }

  ghost predicate PassedAlong(env: Env, path: seq<Json>)
  {
    forall i | 0 <= i < |path| - 1 :: Passes(env, path[i], path[i + 1])
  }

  /** A value given to `a` comes to `b`, through references and candidates of `anyOf`. */
  ghost predicate Leads(env: Env, a: Json, b: Json)
  {
    exists path :: |path| > 1 && path[0] == a && path[|path| - 1] == b && PassedAlong(env, path)
  }

  ghost predicate Loopless(env: Env, schemas: set<Json>)
  {
    forall s | s in schemas :: !Leads(env, s, s)
  }

  lemma {:induction false} LeadsOn(env: Env, a: Json, b: Json, c: Json)
    requires (a == b || Leads(env, a, b)) && Passes(env, b, c)
    ensures Leads(env, a, c)
  {
    hide Passes;
    var path := [a];
    if a != b { path :| |path| > 1 && path[0] == a && path[|path| - 1] == b && PassedAlong(env, path); }
    assert PassedAlong(env, path + [c]);
  }

  // ---------------------------------------------------------------- without loops, everything is grounded

  /** References left on a level of `size` schemas, `used` of which have been met, and below it. */
  function Room(depth: nat, size: nat, used: nat): (fuel: nat)
    requires used <= size
  {
    depth * size + size - used
  }

  lemma RoomBelow(depth: nat, size: nat, used: nat)
    requires 0 < depth && used <= size
    ensures Room(depth - 1, size, 0) <= Room(depth, size, used)
  {
    assert (depth - 1) * size + size == depth * size;
  }

  lemma {:induction false} SmallerSet<T>(a: set<T>, b: set<T>)
    requires a <= b
    ensures |a| <= |b|
  {
    assert b == a + (b - a);
  }

  /** On its way through one level, a value meets no schema twice. */
  lemma {:induction false} LooplessIsGrounded(env: Env, schemas: set<Json>, met: set<Json>, depth: nat, schema: Json)
    requires Closed(env, schemas) && Loopless(env, schemas) && schema in schemas
    requires met <= schemas && |met| <= |schemas| && forall m | m in met :: Leads(env, m, schema)
    ensures Grounded(env, Room(depth, |schemas|, |met|), Some(depth), schema)
    decreases depth, |schemas| - |met|, schema
  {
    hide Leads, Grounded, Keyword, Target, Resolve;
    var fuel := Room(depth, |schemas|, |met|);
    assert schema !in met;
    if IsReference(schema) {
      var target, more := Target(env, schema).value, met + {schema};
      forall m | m in more ensures Leads(env, m, target) { LeadsOn(env, m, schema, target); }
      SmallerSet(more, schemas);
      LooplessIsGrounded(env, schemas, more, depth, target);
      ReferenceGrounded(env, Room(depth, |schemas|, |more|), fuel, depth, schema);
    } else {
      forall c | c in Candidates(schema) ensures Grounded(env, fuel, Some(depth), c) {
        forall m | m in met ensures Leads(env, m, c) { LeadsOn(env, m, schema, c); }
        LooplessIsGrounded(env, schemas, met, depth, c);
      }
      if depth > 0 {
        RoomBelow(depth, |schemas|, |met|);
        forall b | Enters(schema, b) ensures Grounded(env, fuel, Some(depth - 1), b) {
          LooplessIsGrounded(env, schemas, {}, depth - 1, b);
          GroundedWithMore(env, Room(depth - 1, |schemas|, 0), fuel, Some(depth - 1), Some(depth - 1), b);
        }
      }
      SiblingsGrounded(env, fuel, depth, schema);
    }
  }

  lemma {:induction false} ReferenceGrounded(env: Env, fuel: nat, more: nat, depth: nat, schema: Json)
    requires IsReference(schema) && Target(env, schema).Some? && Grounded(env, fuel, Some(depth), Target(env, schema).value) && fuel < more
    ensures Grounded(env, more, Some(depth), schema)
  {
    hide InnerGrounded, Candidates, Children, Resolve;
    GroundedWithMore(env, fuel, more - 1, Some(depth), Some(depth), Target(env, schema).value);
  }

  lemma {:induction false} SiblingsGrounded(env: Env, fuel: nat, depth: nat, schema: Json)
    requires IsSchema(schema) && !IsReference(schema) && Complete(env, schema)
    requires forall c | c in Candidates(schema) :: Grounded(env, fuel, Some(depth), c)
    requires depth > 0 ==> forall b | Enters(schema, b) :: Grounded(env, fuel, Some(depth - 1), b)
    ensures Grounded(env, fuel, Some(depth), schema)
  {
    hide InnerGrounded, Candidates, Children, Enters;
    if depth > 0 { InsideGrounded(env, fuel, Some(depth - 1), schema); }
  }

  lemma {:induction false} InsideGrounded(env: Env, fuel: nat, depth: Option<nat>, schema: Json)
    requires !IsReference(schema) && forall b | Enters(schema, b) :: Grounded(env, fuel, depth, b)
    ensures InnerGrounded(env, fuel, depth, schema)
  {
    hide Grounded, IsReference, Keyword;
    forall f | f in Children(schema, "properties") && IsSchema(f.value) ensures Grounded(env, fuel, depth, f.value) {
      assert Enters(schema, f.value);
    }
    forall f | f in Children(schema, "patternProperties") && IsSchema(f.value) ensures Grounded(env, fuel, depth, f.value) {
      assert Enters(schema, f.value);
    }
  }

  // ---------------------------------------------------------------- a loop is never grounded

  /** Along a path, references use up fuel and candidates are smaller. */
  lemma {:induction false} PathUsesUp(env: Env, fuel: nat, path: seq<Json>) returns (left: nat)
    requires |path| > 1 && PassedAlong(env, path) && IsSchema(path[0]) && Grounded(env, fuel, Some(0), path[0])
    ensures left <= fuel && IsSchema(path[|path| - 1]) && Grounded(env, left, Some(0), path[|path| - 1])
    ensures left < fuel || path[|path| - 1] < path[0]
  {
    assert Passes(env, path[0], path[1]);
    left := PassUsesUp(env, fuel, path[0], path[1]);
    if |path| > 2 {
      forall i | 0 <= i < |path[1..]| - 1 ensures Passes(env, path[1..][i], path[1..][i + 1]) { assert Passes(env, path[i + 1], path[i + 1 + 1]); }
      left := PathUsesUp(env, left, path[1..]);
    }
  }

  lemma {:induction false} PassUsesUp(env: Env, fuel: nat, a: Json, b: Json) returns (left: nat)
    requires IsSchema(a) && Grounded(env, fuel, Some(0), a) && Passes(env, a, b)
    ensures left <= fuel && IsSchema(b) && Grounded(env, left, Some(0), b) && (left < fuel || b < a)
  {
    left := if IsReference(a) then fuel - 1 else fuel;
  }

  lemma {:induction false} GroundedHasNoLoop(env: Env, fuel: nat, schema: Json)
    requires IsSchema(schema) && Grounded(env, fuel, Some(0), schema)
    ensures !Leads(env, schema, schema)
  {
    hide Grounded, Passes;
    if Leads(env, schema, schema) {
      var path :| |path| > 1 && path[0] == schema && path[|path| - 1] == schema && PassedAlong(env, path);
      var left := PathUsesUp(env, fuel, path);
      GroundedHasNoLoop(env, left, schema);
    }
  }

  // ---------------------------------------------------------------- together

  /** With some bound on references. */
  ghost predicate GroundedFor(env: Env, depth: nat, schema: Json)
  {
    IsSchema(schema) && exists fuel: nat :: Grounded(env, fuel, Some(depth), schema)
  }

  /** Of schemas with nothing missing: none of them hands a value back to itself if and only if each is
    * grounded for values of every depth, with some bound on references. */
  lemma {:induction false} GroundedExactlyWithoutLoops(env: Env, schemas: set<Json>)
    requires Closed(env, schemas)
    ensures Loopless(env, schemas) <==>
            forall s, depth: nat | s in schemas :: GroundedFor(env, depth, s)
  {
    hide Grounded, Leads, Closed;
    forall s | s in schemas ensures IsSchema(s) { ClosedAt(env, schemas, s); }
    if Loopless(env, schemas) {
      forall s, depth: nat | s in schemas ensures GroundedFor(env, depth, s) {
        LooplessIsGrounded(env, schemas, {}, depth, s);
      }
    } else {
      var s :| s in schemas && Leads(env, s, s);
      if GroundedFor(env, 0, s) {
        var fuel: nat :| Grounded(env, fuel, Some(0), s);
        GroundedHasNoLoop(env, fuel, s);
      }
    }
  }

  lemma ClosedAt(env: Env, schemas: set<Json>, schema: Json)
    requires Closed(env, schemas) && schema in schemas
    ensures IsSchema(schema)
  {
  }

  /** Then as many references as there are schemas, once for each level of the value, are room enough: the
    * validator does not throw, its modes agree, and it decides conformance. */
  lemma {:induction false} LooplessDecides(env: Env, schemas: set<Json>, fuel: nat, schema: Json, value: Json, path: Path)
    requires Closed(env, schemas) && Loopless(env, schemas) && schema in schemas
    requires IsSchema(schema) && Sane(env, schema) && WellFormed(value) && fuel >= (Depth(value) + 1) * |schemas|
    ensures var fast, full := Eval(env, false, fuel, schema, value, path), Eval(env, true, fuel, schema, value, path);
            !fast.threw && !full.threw && fast == First(full) && (full.errors == [] <==> Conforms(env, fuel, schema, value))
  {
    hide Eval, Conforms, Grounded, Closed, Loopless, Sane, WellFormed, Depth;
    var depth := Depth(value);
    assert Room(depth, |schemas|, 0) == (depth + 1) * |schemas|;
    LooplessIsGrounded(env, schemas, {}, depth, schema);
    GroundedWithMore(env, Room(depth, |schemas|, 0), fuel, Some(depth), Some(depth), schema);
    GroundedDecides(env, fuel, Some(depth), schema, value, path, fuel);
  }
}
