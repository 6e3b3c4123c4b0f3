/** Canonical serialisation and equality: src/schema-validator.ts, lines 340-348.
  *
  * `stableJson` is a code for JSON values up to the order of object keys: two values have the
  * same text exactly when they have the same meaning. Only numbers that overflowed lose their
  * meaning on the way: an infinity is written `null`. */
module StableJson {
  import opened Json

  // ---------------------------------------------------------------- what the text stands for

  datatype Meaning =
    | MNull
    | MBool(b: bool)
    | MNum(units: int)
    | MStr(s: string)
    | MArr(items: seq<Meaning>)
    | MObj(fields: map<string, Meaning>)

  function MeaningOf(v: Json): Meaning
    decreases v, 1
  {
    match v
    case Null => MNull
    case Bool(b) => MBool(b)
    case Num(n) => if n.Finite? then MNum(n.units) else MNull
    case Str(s) => MStr(s)
    case Arr(items) => MArr(ItemsMeaning(items))
    case Obj(fields) => MObj(FieldsMeaning(v, fields))
  }

  function ItemsMeaning(items: seq<Json>): (m: seq<Meaning>)
    ensures |m| == |items|
    decreases items, 0
  {
    if items == [] then [] else [MeaningOf(items[0])] + ItemsMeaning(items[1..])
  }

  function FieldsMeaning(v: Json, fields: seq<Field>): map<string, Meaning>
    requires v.Obj? && forall f | f in fields :: f in v.fields
    decreases v, 0, |fields|
  {
    if fields == [] then map[]
    else
      assert fields[0] in fields;
      FieldsMeaning(v, fields[1..])[fields[0].key := MeaningOf(fields[0].value)]
  }

  // ---------------------------------------------------------------- sorted keys

  /** Order of UTF-16 code units, which is how strings are sorted: a character beyond the basic
    * plane sorts with the surrogates, below U+E000. */
  function Weight(c: char): int
  {
    if c as int < 0x1_0000 then c as int * 0x400 else 0xD800 * 0x400 + (c as int - 0x1_0000)
  }

  predicate KeyBefore(a: string, b: string)
  {
    b != [] && (a == [] || Weight(a[0]) < Weight(b[0]) || (a[0] == b[0] && KeyBefore(a[1..], b[1..])))
  }

  lemma {:induction false} KeyOrderTotal(a: string, b: string)
    ensures a == b || KeyBefore(a, b) || KeyBefore(b, a)
    ensures !(KeyBefore(a, b) && KeyBefore(b, a)) && !KeyBefore(a, a)
  {
    if a != [] && b != [] && a[0] == b[0] {
      KeyOrderTotal(a[1..], b[1..]);
      assert a == [a[0]] + a[1..] && b == [b[0]] + b[1..];
    }
    if a != [] { KeyOrderTotal(a[1..], a[1..]); }
  }

  lemma {:induction false} KeyOrderTransitive(a: string, b: string, c: string)
    requires KeyBefore(a, b) && KeyBefore(b, c)
    ensures KeyBefore(a, c)
  {
    if a != [] && a[0] == b[0] && b[0] == c[0] { KeyOrderTransitive(a[1..], b[1..], c[1..]); }
  }

  ghost predicate Sorted(fields: seq<Field>)
  {
    forall i, j | 0 <= i < j < |fields| :: KeyBefore(fields[i].key, fields[j].key)
  }

  function Insert(f: Field, fields: seq<Field>): (r: seq<Field>)
    ensures forall g :: g in r <==> g == f || g in fields
    ensures |r| == |fields| + 1
  {
    if fields == [] || KeyBefore(f.key, fields[0].key) then [f] + fields
    else
      assert fields == [fields[0]] + fields[1..];
      [fields[0]] + Insert(f, fields[1..])
  }

  /** The properties of an object in the order of `Object.keys(value).sort()`. */
  function SortFields(fields: seq<Field>): (r: seq<Field>)
    ensures forall g :: g in r <==> g in fields
    ensures |r| == |fields|
  {
    if fields == [] then []
    else
      assert fields == [fields[0]] + fields[1..];
      Insert(fields[0], SortFields(fields[1..]))
  }

  lemma {:induction false} InsertSorted(f: Field, fields: seq<Field>)
    requires Sorted(fields) && forall g | g in fields :: g.key != f.key
    ensures Sorted(Insert(f, fields))
  {
    if fields != [] && !KeyBefore(f.key, fields[0].key) {
      InsertSorted(f, fields[1..]);
      KeyOrderTotal(f.key, fields[0].key);
      var r := Insert(f, fields[1..]);
      forall j | 0 <= j < |r| ensures KeyBefore(fields[0].key, r[j].key) {
        assert r[j] in r;
      }
    } else if fields != [] {
      forall j | 0 <= j < |fields| ensures KeyBefore(f.key, fields[j].key) {
        if j > 0 { KeyOrderTransitive(f.key, fields[0].key, fields[j].key); }
      }
    }
  }

  lemma {:induction false} SortSorts(fields: seq<Field>)
    requires DistinctKeys(fields)
    ensures Sorted(SortFields(fields))
  {
    if fields != [] {
      SortSorts(fields[1..]);
      forall g | g in SortFields(fields[1..]) ensures g.key != fields[0].key { assert g in fields[1..]; }
      InsertSorted(fields[0], SortFields(fields[1..]));
    }
  }

  // ---------------------------------------------------------------- the text

  const HEX := "0123456789abcdef"

  /** One character inside a JSON string literal (ECMA-262, QuoteJSONString). */
  function Escape(c: char): (e: string)
    ensures e != [] && e[0] != '"'
  {
    if c == '"' then "\\\""
    else if c == '\\' then "\\\\"
    else if c as int == 0x08 then "\\b"
    else if c == '\t' then "\\t"
    else if c == '\n' then "\\n"
    else if c as int == 0x0C then "\\f"
    else if c == '\r' then "\\r"
    else if c as int < 0x20 then "\\u00" + [HEX[c as int / 16], HEX[c as int % 16]]
    else [c]
  }

  function QuoteBody(s: string): string
  {
    if s == [] then [] else Escape(s[0]) + QuoteBody(s[1..])
  }

  function Quote(s: string): string { "\"" + QuoteBody(s) + "\"" }

  function StableText(show: int -> string, v: Json): string
    decreases v, 1
  {
    match v
    case Null => "null"
    case Bool(b) => if b then "true" else "false"
    case Num(n) => if n.Finite? then show(n.units) else "null"
    case Str(s) => Quote(s)
    case Arr(items) => "[" + ItemsText(show, items) + "]"
    case Obj(fields) => "{" + FieldsText(show, v, SortFields(fields)) + "}"
  }

  function ItemsText(show: int -> string, items: seq<Json>): string
    decreases items, 0
  {
    if items == [] then ""
    else if |items| == 1 then StableText(show, items[0])
    else StableText(show, items[0]) + "," + ItemsText(show, items[1..])
  }

  function FieldsText(show: int -> string, v: Json, fields: seq<Field>): string
    requires v.Obj? && forall f | f in fields :: f in v.fields
    decreases v, 0, |fields|
  {
    if fields == [] then ""
    else
      assert fields[0] in fields;
      var first := Quote(fields[0].key) + ":" + StableText(show, fields[0].value);
      if |fields| == 1 then first else first + "," + FieldsText(show, v, fields[1..])
  }

  /** `jsonEqual`; identical values have identical text, so the identity test adds nothing. */
  predicate JsonEqual(show: int -> string, a: Json, b: Json)
  {
    StableText(show, a) == StableText(show, b)
  }
}
