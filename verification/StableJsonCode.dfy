/** `stableJson` is a canonical, self-delimiting code for the meaning of a JSON value. */
module StableJsonCode {
  import opened Json
  import opened StableJson

  predicate NumberChar(c: char)
  {
    '0' <= c <= '9' || c == '+' || c == '-' || c == '.' || c == 'e'
  }

  /** What is asked of the engine's number formatting: distinct finite numbers have distinct
    * texts, made of the characters of a JSON number. */
  ghost predicate NumberText(show: int -> string)
  {
    && (forall m, n :: show(m) == show(n) ==> m == n)
    && (forall n :: show(n) != [])
    && (forall n, i | 0 <= i < |show(n)| :: NumberChar(show(n)[i]))
  }

  /** What may follow a value: the end of the text or a delimiter. */
  predicate Ends(rest: string)
  {
    rest == [] || rest[0] == ',' || rest[0] == ']' || rest[0] == '}'
  }

  lemma Cancel(p: string, r: string, s: string)
    requires p + r == p + s
    ensures r == s
  {
    assert r == (p + r)[|p|..] && s == (p + s)[|p|..];
  }

  // ---------------------------------------------------------------- strings and numbers

  lemma EscapeUnique(c: char, d: char, r: string, s: string)
    requires Escape(c) + r == Escape(d) + s
    ensures c == d && r == s
  {
    var e, f := Escape(c), Escape(d);
    assert (e + r)[0] == e[0] && (f + s)[0] == f[0];
    if |e| > 1 && |f| > 1 {
      assert (e + r)[1] == e[1] && (f + s)[1] == f[1];
      if |e| == 6 && |f| == 6 {
        assert (e + r)[4] == e[4] && (f + s)[4] == f[4] && (e + r)[5] == e[5] && (f + s)[5] == f[5];
        HexUnique(c as int / 16, d as int / 16);
        HexUnique(c as int % 16, d as int % 16);
      }
    }
    assert c == d;
    Cancel(e, r, s);
  }

  lemma HexUnique(i: int, j: int)
    requires 0 <= i < 16 && 0 <= j < 16
    ensures HEX[i] == HEX[j] ==> i == j
  {
  }

  /** Only the empty string is closed at once. */
  lemma BodyFirst(a: string, r: string)
    ensures (QuoteBody(a) + ("\"" + r))[0] == '"' <==> a == []
    ensures a == [] ==> QuoteBody(a) + ("\"" + r) == "\"" + r
    ensures a != [] ==> QuoteBody(a) + ("\"" + r) == Escape(a[0]) + (QuoteBody(a[1..]) + ("\"" + r))
  {
    hide Escape;
    if a != [] { assert Escape(a[0])[0] != '"'; }
  }

  lemma {:induction false} QuoteBodyUnique(a: string, b: string, r: string, s: string)
    requires QuoteBody(a) + ("\"" + r) == QuoteBody(b) + ("\"" + s)
    ensures a == b && r == s
  {
    hide Escape;
    BodyFirst(a, r);
    BodyFirst(b, s);
    if a == [] {
      Cancel("\"", r, s);
    } else {
      EscapeUnique(a[0], b[0], QuoteBody(a[1..]) + ("\"" + r), QuoteBody(b[1..]) + ("\"" + s));
      QuoteBodyUnique(a[1..], b[1..], r, s);
      assert a == [a[0]] + a[1..] && b == [b[0]] + b[1..];
    }
  }

  lemma QuoteUnique(a: string, b: string, r: string, s: string)
    requires Quote(a) + r == Quote(b) + s
    ensures a == b && r == s
  {
    hide QuoteBody;
    assert Quote(a) + r == "\"" + (QuoteBody(a) + ("\"" + r));
    assert Quote(b) + s == "\"" + (QuoteBody(b) + ("\"" + s));
    Cancel("\"", QuoteBody(a) + ("\"" + r), QuoteBody(b) + ("\"" + s));
    QuoteBodyUnique(a, b, r, s);
  }

  lemma NumberUnique(show: int -> string, m: int, n: int, r: string, s: string)
    requires NumberText(show) && Ends(r) && Ends(s)
    requires show(m) + r == show(n) + s
    ensures m == n && r == s
  {
    LongerDiffers(show(m), show(n), r, s);
    LongerDiffers(show(n), show(m), s, r);
    assert show(m) == (show(m) + r)[..|show(m)|] == (show(n) + s)[..|show(n)|] == show(n);
    Cancel(show(m), r, s);
  }

  lemma LongerDiffers(x: string, y: string, r: string, s: string)
    requires Ends(r) && forall i | 0 <= i < |y| :: NumberChar(y[i])
    ensures |x| < |y| ==> x + r != y + s
  {
    if |x| < |y| && r != [] {
      assert (x + r)[|x|] == r[0] && (y + s)[|x|] == y[|x|] && NumberChar(y[|x|]) && !NumberChar(r[0]);
    }
  }

  // ---------------------------------------------------------------- the text determines the meaning

  datatype Kind = KNull | KTrue | KFalse | KNum | KStr | KArr | KObj

  function KindOf(v: Json): Kind
  {
    match v
    case Null => KNull
    case Bool(b) => if b then KTrue else KFalse
    case Num(n) => if n.Finite? then KNum else KNull
    case Str(_) => KStr
    case Arr(_) => KArr
    case Obj(_) => KObj
  }

  /** The kind of value a text begins. */
  function KindAt(c: char): Kind
  {
    if c == 'n' then KNull else if c == 't' then KTrue else if c == 'f' then KFalse
    else if c == '"' then KStr else if c == '[' then KArr else if c == '{' then KObj else KNum
  }

  lemma FirstChar(show: int -> string, v: Json)
    requires NumberText(show)
    ensures var t := StableText(show, v);
            t != [] && KindAt(t[0]) == KindOf(v) && t[0] != ']' && t[0] != '}' && t[0] != ','
  {
    if v.Num? && v.n.Finite? { assert NumberChar(show(v.n.units)[0]); }
  }

  lemma SameKind(show: int -> string, a: Json, b: Json, r: string, s: string)
    requires NumberText(show) && StableText(show, a) + r == StableText(show, b) + s
    ensures KindOf(a) == KindOf(b)
  {
    FirstChar(show, a);
    FirstChar(show, b);
    assert (StableText(show, a) + r)[0] == StableText(show, a)[0] && (StableText(show, b) + s)[0] == StableText(show, b)[0];
  }

  lemma {:induction false} TextDetermines(show: int -> string, a: Json, b: Json, r: string, s: string)
    requires NumberText(show) && WellFormed(a) && WellFormed(b) && Ends(r) && Ends(s)
    requires StableText(show, a) + r == StableText(show, b) + s
    ensures MeaningOf(a) == MeaningOf(b) && r == s
    decreases a, 1
  {
    SameKind(show, a, b, r, s);
    match KindOf(a) {
      case KNum => NumberUnique(show, a.n.units, b.n.units, r, s);
      case KStr => QuoteUnique(a.s, b.s, r, s);
      case KArr => ArraysDetermine(show, a, b, r, s);
      case KObj => ObjectsDetermine(show, a, b, r, s);
      case _ => Cancel(StableText(show, a), r, s);
    }
  }

  lemma {:induction false} ArraysDetermine(show: int -> string, a: Json, b: Json, r: string, s: string)
    requires NumberText(show) && WellFormed(a) && WellFormed(b) && Ends(r) && Ends(s) && a.Arr? && b.Arr?
    requires StableText(show, a) + r == StableText(show, b) + s
    ensures MeaningOf(a) == MeaningOf(b) && r == s
    decreases a, 0
  {
    var ra, sb := ItemsText(show, a.items) + ("]" + r), ItemsText(show, b.items) + ("]" + s);
    assert StableText(show, a) + r == "[" + ra && StableText(show, b) + s == "[" + sb;
    Cancel("[", ra, sb);
    ItemsDetermine(show, a.items, b.items, r, s);
  }

  lemma {:induction false} ItemsDetermine(show: int -> string, a: seq<Json>, b: seq<Json>, r: string, s: string)
    requires NumberText(show) && Ends(r) && Ends(s)
    requires (forall i | 0 <= i < |a| :: WellFormed(a[i])) && (forall i | 0 <= i < |b| :: WellFormed(b[i]))
    requires ItemsText(show, a) + ("]" + r) == ItemsText(show, b) + ("]" + s)
    ensures ItemsMeaning(a) == ItemsMeaning(b) && r == s
    decreases a
  {
    if a == [] || b == [] {
      EmptyItems(show, a, r);
      EmptyItems(show, b, s);
      Cancel("]", r, s);
    } else {
      var ta, tb := ItemsTail(show, a, r), ItemsTail(show, b, s);
      SplitItems(show, a, r);
      SplitItems(show, b, s);
      TextDetermines(show, a[0], b[0], ta, tb);
      assert ta[0] == tb[0];
      if |a| > 1 {
        assert |b| > 1;
        Cancel(",", ItemsText(show, a[1..]) + ("]" + r), ItemsText(show, b[1..]) + ("]" + s));
        ItemsDetermine(show, a[1..], b[1..], r, s);
      } else {
        assert |b| == 1;
        Cancel("]", r, s);
      }
    }
  }

  /** What follows the first item. */
  function ItemsTail(show: int -> string, items: seq<Json>, r: string): (t: string)
    requires items != []
    ensures Ends(t) && t != []
  {
    if |items| == 1 then "]" + r else "," + (ItemsText(show, items[1..]) + ("]" + r))
  }

  lemma SplitItems(show: int -> string, items: seq<Json>, r: string)
    requires items != []
    ensures ItemsText(show, items) + ("]" + r) == StableText(show, items[0]) + ItemsTail(show, items, r)
  {
  }

  /** Only the empty list of items starts with the closing bracket. */
  lemma EmptyItems(show: int -> string, items: seq<Json>, r: string)
    requires NumberText(show)
    ensures (ItemsText(show, items) + ("]" + r))[0] == ']' <==> items == []
    ensures items == [] ==> ItemsText(show, items) + ("]" + r) == "]" + r
  {
    if items != [] {
      SplitItems(show, items, r);
      FirstChar(show, items[0]);
    }
  }

  // ---------------------------------------------------------------- objects

  ghost predicate Among(v: Json, fields: seq<Field>)
  {
    v.Obj? && forall f | f in fields :: f in v.fields
  }

  lemma {:induction false} ObjectsDetermine(show: int -> string, a: Json, b: Json, r: string, s: string)
    requires NumberText(show) && WellFormed(a) && WellFormed(b) && Ends(r) && Ends(s) && a.Obj? && b.Obj?
    requires StableText(show, a) + r == StableText(show, b) + s
    ensures MeaningOf(a) == MeaningOf(b) && r == s
    decreases a, 0, |a.fields| + 1
  {
    hide WellFormed, StableText, FieldsText, NumberText, FieldsMeaning, MeaningOf, SortFields;
    ObjectText(show, a);
    ObjectText(show, b);
    ObjectMeaning(a);
    ObjectMeaning(b);
    var fs, gs := SortFields(a.fields), SortFields(b.fields);
    var ra, sb := FieldsText(show, a, fs) + ("}" + r), FieldsText(show, b, gs) + ("}" + s);
    assert StableText(show, a) + r == "{" + ra && StableText(show, b) + s == "{" + sb;
    Cancel("{", ra, sb);
    FieldsDetermine(show, a, fs, b, gs, r, s);
  }

  lemma ObjectText(show: int -> string, v: Json)
    requires v.Obj?
    ensures Among(v, SortFields(v.fields)) && StableText(show, v) == "{" + FieldsText(show, v, SortFields(v.fields)) + "}"
  {
  }

  lemma ObjectMeaning(v: Json)
    requires v.Obj? && WellFormed(v)
    ensures Among(v, SortFields(v.fields)) && MeaningOf(v) == MObj(FieldsMeaning(v, SortFields(v.fields)))
  {
    SortKeepsMeaning(v, v.fields);
  }

  lemma {:induction false} FieldsDetermine(show: int -> string, a: Json, fs: seq<Field>, b: Json, gs: seq<Field>, r: string, s: string)
    requires NumberText(show) && WellFormed(a) && WellFormed(b) && Ends(r) && Ends(s) && Among(a, fs) && Among(b, gs)
    requires FieldsText(show, a, fs) + ("}" + r) == FieldsText(show, b, gs) + ("}" + s)
    ensures FieldsMeaning(a, fs) == FieldsMeaning(b, gs) && r == s
    decreases a, 0, |fs|
  {
    if fs == [] || gs == [] {
      EmptyFields(show, a, fs, r);
      EmptyFields(show, b, gs, s);
      Cancel("}", r, s);
    } else {
      var f, g := fs[0], gs[0];
      assert f in fs && g in gs;
      var ta, tb := FieldsTail(show, a, fs, r), FieldsTail(show, b, gs, s);
      SplitFields(show, a, fs, r);
      SplitFields(show, b, gs, s);
      QuoteUnique(f.key, g.key, ":" + (StableText(show, f.value) + ta), ":" + (StableText(show, g.value) + tb));
      Cancel(":", StableText(show, f.value) + ta, StableText(show, g.value) + tb);
      TextDetermines(show, f.value, g.value, ta, tb);
      assert ta[0] == tb[0];
      if |fs| > 1 {
        assert |gs| > 1;
        Cancel(",", FieldsText(show, a, fs[1..]) + ("}" + r), FieldsText(show, b, gs[1..]) + ("}" + s));
        FieldsDetermine(show, a, fs[1..], b, gs[1..], r, s);
      } else {
        assert |gs| == 1;
        Cancel("}", r, s);
        assert fs[1..] == [] && gs[1..] == [];
      }
    }
  }

  /** What follows the first property. */
  function FieldsTail(show: int -> string, v: Json, fields: seq<Field>, r: string): (t: string)
    requires Among(v, fields) && fields != []
    ensures Ends(t) && t != []
  {
    if |fields| == 1 then "}" + r else "," + (FieldsText(show, v, fields[1..]) + ("}" + r))
  }

  lemma SplitFields(show: int -> string, v: Json, fields: seq<Field>, r: string)
    requires Among(v, fields) && fields != []
    ensures FieldsText(show, v, fields) + ("}" + r) ==
            Quote(fields[0].key) + (":" + (StableText(show, fields[0].value) + FieldsTail(show, v, fields, r)))
  {
    hide StableText, Quote, SortFields;
    assert fields[0] in fields;
  }

  lemma EmptyFields(show: int -> string, v: Json, fields: seq<Field>, r: string)
    requires Among(v, fields)
    ensures (FieldsText(show, v, fields) + ("}" + r))[0] == '}' <==> fields == []
    ensures fields == [] ==> FieldsText(show, v, fields) + ("}" + r) == "}" + r
  {
    if fields != [] { SplitFields(show, v, fields, r); }
  }

  lemma {:induction false} InsertKeepsMeaning(v: Json, f: Field, fields: seq<Field>)
    requires Among(v, fields) && Among(v, [f]) && forall g | g in fields :: g.key != f.key
    ensures Among(v, Insert(f, fields))
    ensures FieldsMeaning(v, Insert(f, fields)) == FieldsMeaning(v, fields)[f.key := MeaningOf(f.value)]
  {
    hide MeaningOf, KeyBefore, Insert;
    if fields == [] || KeyBefore(f.key, fields[0].key) {
      InsertAtHead(v, f, fields);
    } else {
      assert fields[0] in fields && forall g | g in fields[1..] :: g in fields;
      InsertKeepsMeaning(v, f, fields[1..]);
      InsertAfterHead(v, f, fields);
    }
  }

  lemma InsertAtHead(v: Json, f: Field, fields: seq<Field>)
    requires Among(v, fields) && Among(v, [f]) && (fields == [] || KeyBefore(f.key, fields[0].key))
    ensures Among(v, Insert(f, fields))
    ensures FieldsMeaning(v, Insert(f, fields)) == FieldsMeaning(v, fields)[f.key := MeaningOf(f.value)]
  {
    hide MeaningOf, KeyBefore;
    assert f in [f];
    assert ([f] + fields)[1..] == fields;
  }

  lemma InsertAfterHead(v: Json, f: Field, fields: seq<Field>)
    requires Among(v, fields) && Among(v, [f]) && fields != [] && !KeyBefore(f.key, fields[0].key)
    ensures Among(v, Insert(f, fields)) && Among(v, Insert(f, fields[1..]))
    ensures FieldsMeaning(v, Insert(f, fields)) == FieldsMeaning(v, Insert(f, fields[1..]))[fields[0].key := MeaningOf(fields[0].value)]
  {
    hide MeaningOf, KeyBefore;
    assert f in [f] && fields[0] in fields;
    assert Insert(f, fields)[1..] == Insert(f, fields[1..]);
  }

  lemma {:induction false} SortKeepsMeaning(v: Json, fields: seq<Field>)
    requires Among(v, fields) && DistinctKeys(fields)
    ensures FieldsMeaning(v, SortFields(fields)) == FieldsMeaning(v, fields)
  {
    if fields != [] {
      assert fields[0] in fields;
      SortKeepsMeaning(v, fields[1..]);
      forall g | g in SortFields(fields[1..]) ensures g.key != fields[0].key { assert g in fields[1..]; }
      InsertKeepsMeaning(v, fields[0], SortFields(fields[1..]));
    }
  }

  // ---------------------------------------------------------------- the meaning determines the text

  lemma {:induction false} MeaningDetermines(show: int -> string, a: Json, b: Json)
    requires WellFormed(a) && WellFormed(b) && MeaningOf(a) == MeaningOf(b)
    ensures StableText(show, a) == StableText(show, b)
    decreases a, 1
  {
    if a.Arr? {
      ItemsSame(show, a.items, b.items);
    } else if a.Obj? {
      var fs, gs := SortFields(a.fields), SortFields(b.fields);
      SortKeepsMeaning(a, a.fields);
      SortKeepsMeaning(b, b.fields);
      SortSorts(a.fields);
      SortSorts(b.fields);
      FieldsSame(show, a, fs, b, gs);
    }
  }

  lemma {:induction false} ItemsSame(show: int -> string, a: seq<Json>, b: seq<Json>)
    requires (forall i | 0 <= i < |a| :: WellFormed(a[i])) && (forall i | 0 <= i < |b| :: WellFormed(b[i]))
    requires ItemsMeaning(a) == ItemsMeaning(b)
    ensures ItemsText(show, a) == ItemsText(show, b)
    decreases a
  {
    if a != [] {
      assert |ItemsMeaning(a)| == |a| == |b|;
      assert ItemsMeaning(a)[0] == MeaningOf(a[0]) && ItemsMeaning(b)[0] == MeaningOf(b[0]);
      assert ItemsMeaning(a)[1..] == ItemsMeaning(a[1..]) && ItemsMeaning(b)[1..] == ItemsMeaning(b[1..]);
      MeaningDetermines(show, a[0], b[0]);
      ItemsSame(show, a[1..], b[1..]);
    }
  }

  /** A key of the map is a key of the list. */
  lemma {:induction false} FieldsKeys(v: Json, fields: seq<Field>, key: string)
    requires Among(v, fields) && key in FieldsMeaning(v, fields)
    ensures exists i :: 0 <= i < |fields| && fields[i].key == key
  {
    if key == fields[0].key {
      assert fields[0].key == key;
    } else {
      FieldsKeys(v, fields[1..], key);
      var i :| 0 <= i < |fields[1..]| && fields[1..][i].key == key;
      assert fields[i + 1].key == key;
    }
  }

  lemma {:induction false} FieldsSame(show: int -> string, a: Json, fs: seq<Field>, b: Json, gs: seq<Field>)
    requires WellFormed(a) && WellFormed(b) && Among(a, fs) && Among(b, gs) && Sorted(fs) && Sorted(gs)
    requires FieldsMeaning(a, fs) == FieldsMeaning(b, gs)
    ensures FieldsText(show, a, fs) == FieldsText(show, b, gs)
    decreases a, 0, |fs|
  {
    NothingMeansEmpty(a, fs);
    NothingMeansEmpty(b, gs);
    if fs != [] {
      var f, g := fs[0], gs[0];
      assert f in fs && g in gs;
      SameHead(a, fs, b, gs);
      assert FieldsMeaning(a, fs)[f.key] == MeaningOf(f.value) && FieldsMeaning(b, gs)[g.key] == MeaningOf(g.value);
      MeaningDetermines(show, f.value, g.value);
      TailMeaning(a, fs);
      TailMeaning(b, gs);
      FieldsSame(show, a, fs[1..], b, gs[1..]);
      NothingMeansEmpty(a, fs[1..]);
      NothingMeansEmpty(b, gs[1..]);
    }
  }

  lemma NothingMeansEmpty(v: Json, fields: seq<Field>)
    requires Among(v, fields)
    ensures FieldsMeaning(v, fields) == map[] <==> fields == []
  {
    if fields != [] { assert fields[0].key in FieldsMeaning(v, fields); }
  }

  /** Two sorted lists for one map start with the same key: its least. */
  lemma SameHead(a: Json, fs: seq<Field>, b: Json, gs: seq<Field>)
    requires Among(a, fs) && Among(b, gs) && Sorted(fs) && Sorted(gs) && fs != [] && gs != []
    requires FieldsMeaning(a, fs) == FieldsMeaning(b, gs)
    ensures fs[0].key == gs[0].key
  {
    assert fs[0].key in FieldsMeaning(a, fs) && gs[0].key in FieldsMeaning(b, gs);
    FieldsKeys(b, gs, fs[0].key);
    FieldsKeys(a, fs, gs[0].key);
    var j :| 0 <= j < |gs| && gs[j].key == fs[0].key;
    var i :| 0 <= i < |fs| && fs[i].key == gs[0].key;
    KeyOrderTotal(fs[0].key, gs[0].key);
  }

  lemma TailMeaning(v: Json, fields: seq<Field>)
    requires Among(v, fields) && Sorted(fields) && fields != []
    ensures FieldsMeaning(v, fields[1..]) == FieldsMeaning(v, fields) - {fields[0].key}
  {
    if fields[0].key in FieldsMeaning(v, fields[1..]) {
      FieldsKeys(v, fields[1..], fields[0].key);
      KeyOrderTotal(fields[0].key, fields[0].key);
    }
  }

  // ---------------------------------------------------------------- the equality of the validator

  /** `jsonEqual`, and with it `const`, `enum` and `uniqueItems`, decides structural equality up
    * to the order of keys. */
  lemma JsonEqualIsStructural(show: int -> string, a: Json, b: Json)
    requires NumberText(show) && WellFormed(a) && WellFormed(b)
    ensures JsonEqual(show, a, b) <==> MeaningOf(a) == MeaningOf(b)
  {
    if JsonEqual(show, a, b) {
      TextDetermines(show, a, b, "", "");
    }
    if MeaningOf(a) == MeaningOf(b) {
      MeaningDetermines(show, a, b);
    }
  }

  /** A number that overflowed is taken for null. */
  lemma InfinityEqualsNull(show: int -> string)
    ensures JsonEqual(show, Num(PosInfinity), Null) && Num(PosInfinity) != Null
  {
  }
}
