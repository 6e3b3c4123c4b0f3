/** Splitting and joining. */
module Strings {
  /** `s.split(separator)` */
  function Split(s: string, separator: char): (parts: seq<string>)
    ensures parts != []
  {
    if s == [] then [[]]
    else
      var rest := Split(s[1..], separator);
      if s[0] == separator then [[]] + rest else [[s[0]] + rest[0]] + rest[1..]
  }

  /** `parts.join(separator)` */
  function Join(parts: seq<string>, separator: char): string
  {
    if parts == [] then []
    else if |parts| == 1 then parts[0]
    else parts[0] + [separator] + Join(parts[1..], separator)
  }

  lemma {:induction false} SplitJoin(s: string, separator: char)
    ensures Join(Split(s, separator), separator) == s
  {
    if s != [] {
      var rest := Split(s[1..], separator);
      SplitJoin(s[1..], separator);
      if s[0] == separator {
        assert ([[]] + rest)[1..] == rest;
      } else {
        assert ([[s[0]] + rest[0]] + rest[1..])[1..] == rest[1..];
      }
    }
  }

  lemma {:induction false} SplitNone(s: string, separator: char)
    requires separator !in s
    ensures Split(s, separator) == [s]
  {
    if s != [] {
      SplitNone(s[1..], separator);
      assert [s[1..]][1..] == [] && [s[0]] + s[1..] == s;
    }
  }

  lemma {:induction false} SplitFirst(s: string, separator: char, rest: string)
    requires separator !in s
    ensures Split(s + [separator] + rest, separator) == [s] + Split(rest, separator)
  {
    var all := s + [separator] + rest;
    if s == [] {
      assert all[1..] == rest;
    } else {
      SplitFirst(s[1..], separator, rest);
      assert all[1..] == s[1..] + [separator] + rest;
      assert ([s[1..]] + Split(rest, separator))[1..] == Split(rest, separator) && [s[0]] + s[1..] == s;
    }
  }

  /** Splitting undoes joining when no part holds the separator. */
  lemma {:induction false} JoinSplit(parts: seq<string>, separator: char)
    requires parts != [] && forall i | 0 <= i < |parts| :: separator !in parts[i]
    ensures Split(Join(parts, separator), separator) == parts
  {
    if |parts| == 1 {
      SplitNone(parts[0], separator);
    } else {
      JoinSplit(parts[1..], separator);
      SplitFirst(parts[0], separator, Join(parts[1..], separator));
      assert parts == [parts[0]] + parts[1..];
    }
  }
}
