/** The order of keys is that of their UTF-16 code units, by which strings are sorted. */
module KeyOrder {
  import opened SchemaConformance
  import opened StableJson

  predicate UnitsBefore(a: seq<int>, b: seq<int>)
  {
    b != [] && (a == [] || a[0] < b[0] || (a[0] == b[0] && UnitsBefore(a[1..], b[1..])))
  }

  lemma {:induction false} SamePrefix(p: seq<int>, a: seq<int>, b: seq<int>)
    ensures UnitsBefore(p + a, p + b) <==> UnitsBefore(a, b)
  {
    if p == [] {
      assert p + a == a && p + b == b;
    } else {
      assert (p + a)[1..] == p[1..] + a && (p + b)[1..] == p[1..] + b;
      SamePrefix(p[1..], a, b);
    }
  }

  function UnitsOf(c: char): seq<int> { EncodeUtf16([c]) }

  lemma FirstUnits(s: string)
    requires s != []
    ensures EncodeUtf16(s) == UnitsOf(s[0]) + EncodeUtf16(s[1..])
  {
    assert [s[0]][1..] == [];
    assert EncodeUtf16([]) == [];
  }

  lemma UnitsAre(c: char)
    ensures var u := c as int - 0x1_0000; UnitsOf(c) == if u < 0 then [c as int] else [0xD800 + u / 0x400, 0xDC00 + u % 0x400]
  {
    assert [c][1..] == [] && EncodeUtf16([]) == [];
  }

  lemma DifferentFirst(c: char, d: char, a: seq<int>, b: seq<int>)
    requires c != d
    ensures UnitsBefore(UnitsOf(c) + a, UnitsOf(d) + b) <==> Weight(c) < Weight(d)
  {
    hide EncodeUtf16;
    UnitsAre(c);
    UnitsAre(d);
    var x, y := UnitsOf(c) + a, UnitsOf(d) + b;
    assert x[0] == UnitsOf(c)[0] && y[0] == UnitsOf(d)[0];
    if c as int >= 0x1_0000 && d as int >= 0x1_0000 { assert x[1..][0] == UnitsOf(c)[1] && y[1..][0] == UnitsOf(d)[1]; }
  }

  /** One key is sorted before another exactly when its code units come first. */
  lemma {:induction false} KeysByCodeUnits(a: string, b: string)
    ensures KeyBefore(a, b) <==> UnitsBefore(EncodeUtf16(a), EncodeUtf16(b))
  {
    hide EncodeUtf16, Weight;
    if a == [] || b == [] {
      NothingEncoded(a);
      NothingEncoded(b);
    } else {
      FirstUnits(a);
      FirstUnits(b);
      if a[0] == b[0] {
        SamePrefix(UnitsOf(a[0]), EncodeUtf16(a[1..]), EncodeUtf16(b[1..]));
        KeysByCodeUnits(a[1..], b[1..]);
      } else {
        DifferentFirst(a[0], b[0], EncodeUtf16(a[1..]), EncodeUtf16(b[1..]));
      }
    }
  }

  lemma NothingEncoded(s: string)
    ensures EncodeUtf16(s) == [] <==> s == []
  {
  }
}
