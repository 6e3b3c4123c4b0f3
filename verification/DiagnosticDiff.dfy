/** What an edit did to the diagnostics of a file: src/lsp/diagnostics.ts, lines 131-157 and 217-254. */
module DiagnosticDiff {
  import opened Wrappers

  datatype Severity = Error | Warning | Information | Hint
  datatype Item = Item(severity: Severity, line: nat, column: nat, source: Option<string>, code: Option<string>, message: string)
  datatype Snapshot = Snapshot(source: string, uri: string, known: bool, items: seq<Item>)

  function Name(severity: Severity): string
  {
    match severity
    case Error => "error"
    case Warning => "warning"
    case Information => "information"
    case Hint => "hint"
  }

  function OrEmpty(s: Option<string>): string { if s.Some? then s.value else [] }

  /** Severity, source, code and message; not the place, which edits move. `normalize` folds white space. */
  function DiffKey(normalize: string -> string, item: Item): string
  {
    Name(item.severity) + "|" + OrEmpty(item.source) + "|" + OrEmpty(item.code) + "|" + normalize(item.message)
  }

  function Mark(severity: Severity): string { Name(severity) + "|" }

  /** Whatever the rest of a key holds, it begins with one severity only. */
  lemma KeyShowsSeverity(normalize: string -> string, item: Item, severity: Severity)
    ensures Mark(severity) <= DiffKey(normalize, item) <==> item.severity == severity
  {
    var key, mark := DiffKey(normalize, item), Mark(severity);
    var own := Mark(item.severity);
    assert key == own + (OrEmpty(item.source) + "|" + OrEmpty(item.code) + "|" + normalize(item.message));
    assert own[0] == Name(item.severity)[0] && mark[0] == Name(severity)[0];
    if mark <= key { assert mark[0] == key[0] == own[0]; }
  }

  function FirstBar(s: string): nat
  {
    if s == [] || s[0] == '|' then 0 else 1 + FirstBar(s[1..])
  }

  lemma {:induction false} FirstBarIs(a: string, x: string)
    requires '|' !in a
    ensures FirstBar(a + "|" + x) == |a|
  {
    if a == [] {
      assert ([] + "|" + x)[0] == '|';
    } else {
      assert (a + "|" + x)[1..] == a[1..] + "|" + x;
      FirstBarIs(a[1..], x);
    }
  }

  lemma BarsAgree(a: string, b: string, x: string, y: string)
    requires '|' !in a && '|' !in b
    ensures a + "|" + x == b + "|" + y <==> a == b && x == y
  {
    hide FirstBar;
    FirstBarIs(a, x);
    FirstBarIs(b, y);
    var left, right := a + "|" + x, b + "|" + y;
    assert a == left[..|a|] && b == right[..|b|];
    assert x == left[|a| + 1..] && y == right[|b| + 1..];
  }

  ghost predicate Barless(item: Item) { '|' !in OrEmpty(item.source) && '|' !in OrEmpty(item.code) }

  /** Unless the source or the code holds a bar, a key tells severity, source, code and message apart. */
  lemma KeyTellsApart(normalize: string -> string, a: Item, b: Item)
    requires Barless(a) && Barless(b)
    ensures DiffKey(normalize, a) == DiffKey(normalize, b) <==>
            && a.severity == b.severity && OrEmpty(a.source) == OrEmpty(b.source) && OrEmpty(a.code) == OrEmpty(b.code)
            && normalize(a.message) == normalize(b.message)
  {
    KeyShowsSeverity(normalize, a, b.severity);
    KeyShowsSeverity(normalize, b, b.severity);
    KeyParts(normalize, a);
    KeyParts(normalize, b);
    if a.severity == b.severity {
      var x, y := OrEmpty(a.code) + "|" + normalize(a.message), OrEmpty(b.code) + "|" + normalize(b.message);
      NoBars(a.severity);
      BarsAgree(Name(a.severity), Name(b.severity), OrEmpty(a.source) + "|" + x, OrEmpty(b.source) + "|" + y);
      BarsAgree(OrEmpty(a.source), OrEmpty(b.source), x, y);
      BarsAgree(OrEmpty(a.code), OrEmpty(b.code), normalize(a.message), normalize(b.message));
    }
  }

  lemma NoBars(severity: Severity)
    ensures '|' !in Name(severity)
  {
  }

  lemma KeyParts(normalize: string -> string, item: Item)
    ensures DiffKey(normalize, item) ==
            Name(item.severity) + "|" + (OrEmpty(item.source) + "|" + (OrEmpty(item.code) + "|" + normalize(item.message)))
  {
  }

  /** With bars it need not: these two are counted as one and the same. */
  lemma KeyConfuses(normalize: string -> string, severity: Severity, line: nat, column: nat, message: string)
    ensures var a := Item(severity, line, column, Some("x|y"), Some("z"), message);
            var b := Item(severity, line, column, Some("x"), Some("y|z"), message);
            a != b && DiffKey(normalize, a) == DiffKey(normalize, b)
  {
    var a := Item(severity, line, column, Some("x|y"), Some("z"), message);
    var b := Item(severity, line, column, Some("x"), Some("y|z"), message);
    KeyParts(normalize, a);
    KeyParts(normalize, b);
    assert a.source.value == "x|y" && b.source.value == "x" && a.source.value[1] == '|';
    assert "x|y" + "|" + ("z" + "|" + normalize(message)) == "x" + "|" + ("y|z" + "|" + normalize(message));
  }

  // ---------------------------------------------------------------- counting keys

  /** The keys of a list, as often as they occur. */
  function Keys(normalize: string -> string, items: seq<Item>): multiset<string>
  {
    if items == [] then multiset{}
    else Keys(normalize, items[..|items| - 1]) + multiset{DiffKey(normalize, items[|items| - 1])}
  }

  ghost predicate Counts(counts: map<string, nat>, keys: multiset<string>)
  {
    && (forall k :: k in counts <==> k in keys)
    && (forall k | k in counts :: counts[k] == keys[k])
  }

  method CountKeys(normalize: string -> string, items: seq<Item>) returns (result: map<string, nat>)
    ensures Counts(result, Keys(normalize, items))
  {
    hide DiffKey;
    result := map[];
    var next := 0;
    assert items[..0] == [];
    while next < |items|
      invariant next <= |items| && Counts(result, Keys(normalize, items[..next]))
    {
      var key := DiffKey(normalize, items[next]);
      assert items[..next + 1][..next] == items[..next];
      result := result[key := (if key in result then result[key] else 0) + 1];
      next := next + 1;
    }
    assert items[..next] == items;
  }

  // ---------------------------------------------------------------- the part of one severity

  /** The keys among `among` that begin with a mark. */
  ghost function Part(keys: multiset<string>, among: set<string>, mark: string): (part: multiset<string>)
    ensures forall k :: part[k] == if k in among && mark <= k then keys[k] else 0
    decreases among
  {
    if among == {} then multiset{}
    else
      var x :| x in among;
      var rest := Part(keys, among - {x}, mark);
      if mark <= x then rest[x := keys[x]] else rest
  }

  ghost function All(keys: multiset<string>, mark: string): multiset<string>
    ensures forall k :: All(keys, mark)[k] == if mark <= k then keys[k] else 0
  {
    var among := set k | k in keys;
    assert forall k | k !in among :: keys[k] == 0;
    Part(keys, among, mark)
  }

  lemma PartGrows(keys: multiset<string>, among: set<string>, mark: string, x: string)
    requires x !in among
    ensures |Part(keys, among + {x}, mark)| == |Part(keys, among, mark)| + if mark <= x then keys[x] else 0
  {
    var before, after := Part(keys, among, mark), Part(keys, among + {x}, mark);
    var n := if mark <= x then keys[x] else 0;
    assert after == before[x := n];
  }

  /** How much more often a key occurs. */
  function Delta(from: map<string, nat>, to: map<string, nat>, key: string): int
    requires key in to
  {
    to[key] as int - (if key in from then from[key] else 0)
  }

  /** Keys gained from one list to the other, one by one. */
  method CountGained(from: map<string, nat>, to: map<string, nat>, ghost before: multiset<string>, ghost after: multiset<string>)
    returns (errors: nat, warnings: nat)
    requires Counts(from, before) && Counts(to, after)
    ensures errors == |All(after - before, Mark(Error))|
    ensures warnings == |All(after - before, Mark(Warning))|
  {
    hide Part, All, Mark, Counts, Delta;
    errors, warnings := 0, 0;
    var rest := to.Keys;
    ghost var done: set<string> := {};
    ghost var gained := after - before;
    NoKeys(gained);
    while rest != {}
      invariant done !! rest && done + rest == to.Keys
      invariant errors == |Part(gained, done, Mark(Error))| && warnings == |Part(gained, done, Mark(Warning))|
      decreases |rest|
    {
      var key :| key in rest;
      var delta := Delta(from, to, key);
      KeyGained(from, to, before, after, done, key);
      if delta > 0 {
        if Mark(Error) <= key { errors := errors + delta; }
        else if Mark(Warning) <= key { warnings := warnings + delta; }
      }
      rest := rest - {key};
      done := done + {key};
    }
    assert done == to.Keys;
    GainedKeys(from, to, before, after);
    AllParts(gained, done, Mark(Error));
    AllParts(gained, done, Mark(Warning));
  }

  /** What one key adds to either count. */
  lemma KeyGained(from: map<string, nat>, to: map<string, nat>, before: multiset<string>, after: multiset<string>, done: set<string>, key: string)
    requires Counts(from, before) && Counts(to, after) && key in to && key !in done
    ensures var gained, delta := after - before, Delta(from, to, key);
            && |Part(gained, done + {key}, Mark(Error))| ==
                 |Part(gained, done, Mark(Error))| + (if delta > 0 && Mark(Error) <= key then delta else 0)
            && |Part(gained, done + {key}, Mark(Warning))| ==
                 |Part(gained, done, Mark(Warning))| + (if delta > 0 && Mark(Warning) <= key then delta else 0)
            && !(Mark(Error) <= key && Mark(Warning) <= key)
  {
    hide Part, Mark;
    PartGrows(after - before, done, Mark(Error), key);
    PartGrows(after - before, done, Mark(Warning), key);
    MarksDiffer(key);
  }

  lemma GainedKeys(from: map<string, nat>, to: map<string, nat>, before: multiset<string>, after: multiset<string>)
    requires Counts(from, before) && Counts(to, after)
    ensures forall k | k in after - before :: k in to.Keys
  {
  }

  lemma NoKeys(keys: multiset<string>)
    ensures forall mark :: |Part(keys, {}, mark)| == 0
  {
  }

  lemma MarksDiffer(key: string)
    ensures !(Mark(Error) <= key && Mark(Warning) <= key)
  {
    assert Mark(Error)[0] != Mark(Warning)[0];
  }

  lemma AllParts(keys: multiset<string>, among: set<string>, mark: string)
    requires forall k | k in keys :: k in among
    ensures Part(keys, among, mark) == All(keys, mark)
  {
    hide Part;
    assert forall k | k !in among :: keys[k] == 0;
  }

  // ---------------------------------------------------------------- the summary

  datatype Diff = Diff(newErrors: nat, newWarnings: nat, resolvedErrors: nat, resolvedWarnings: nat)

  /** New keys are those of the second list beyond the first, resolved ones the other way round. */
  ghost function DiffOf(before: multiset<string>, after: multiset<string>): Diff
  {
    Diff(|All(after - before, Mark(Error))|, |All(after - before, Mark(Warning))|,
         |All(before - after, Mark(Error))|, |All(before - after, Mark(Warning))|)
  }

  function Swap(d: Diff): Diff { Diff(d.resolvedErrors, d.resolvedWarnings, d.newErrors, d.newWarnings) }

  method DiffCounts(before: map<string, nat>, after: map<string, nat>, ghost beforeKeys: multiset<string>, ghost afterKeys: multiset<string>) returns (diff: Diff)
    requires Counts(before, beforeKeys) && Counts(after, afterKeys)
    ensures diff == DiffOf(beforeKeys, afterKeys)
  {
    hide All;
    var newErrors, newWarnings := CountGained(before, after, beforeKeys, afterKeys);
    var resolvedErrors, resolvedWarnings := CountGained(after, before, afterKeys, beforeKeys);
    diff := Diff(newErrors, newWarnings, resolvedErrors, resolvedWarnings);
  }

  function CountOf(items: seq<Item>, severity: Severity): nat
  {
    if items == [] then 0 else CountOf(items[..|items| - 1], severity) + if items[|items| - 1].severity == severity then 1 else 0
  }

  lemma AllAdd(a: multiset<string>, b: multiset<string>, mark: string)
    ensures |All(a + b, mark)| == |All(a, mark)| + |All(b, mark)|
  {
    hide Part;
    assert All(a + b, mark) == All(a, mark) + All(b, mark);
  }

  lemma AllOne(key: string, mark: string)
    ensures |All(multiset{key}, mark)| == if mark <= key then 1 else 0
  {
    hide Part;
    assert All(multiset{key}, mark) == if mark <= key then multiset{key} else multiset{};
  }

  /** The keys of a severity are as many as its items. */
  lemma {:induction false} KeysOfSeverity(normalize: string -> string, items: seq<Item>, severity: Severity)
    ensures |All(Keys(normalize, items), Mark(severity))| == CountOf(items, severity)
  {
    hide All, DiffKey, Mark;
    if items == [] {
      AllNone(Mark(severity));
    } else {
      var n := |items| - 1;
      var key := DiffKey(normalize, items[n]);
      KeysOfSeverity(normalize, items[..n], severity);
      AllAdd(Keys(normalize, items[..n]), multiset{key}, Mark(severity));
      AllOne(key, Mark(severity));
      KeyShowsSeverity(normalize, items[n], severity);
    }
  }

  lemma AllNone(mark: string)
    ensures |All(multiset{}, mark)| == 0
  {
    hide Part;
    assert All(multiset{}, mark) == multiset{};
  }

  /** What is new less what is resolved is the change in the number of keys. */
  lemma GainedLessLost(before: multiset<string>, after: multiset<string>, mark: string)
    ensures |All(after - before, mark)| - |All(before - after, mark)| == |All(after, mark)| - |All(before, mark)|
  {
    hide All;
    assert after == (after - before) + (after * before) && before == (before - after) + (after * before);
    AllAdd(after - before, after * before, mark);
    AllAdd(before - after, after * before, mark);
  }

  /** For any two lists: new minus resolved is after minus before, for errors and for warnings. */
  lemma DiffBalances(normalize: string -> string, before: seq<Item>, after: seq<Item>)
    ensures var d := DiffOf(Keys(normalize, before), Keys(normalize, after));
            && d.newErrors - d.resolvedErrors == CountOf(after, Error) - CountOf(before, Error)
            && d.newWarnings - d.resolvedWarnings == CountOf(after, Warning) - CountOf(before, Warning)
  {
    hide All, Keys, CountOf;
    GainedLessLost(Keys(normalize, before), Keys(normalize, after), Mark(Error));
    GainedLessLost(Keys(normalize, before), Keys(normalize, after), Mark(Warning));
    KeysOfSeverity(normalize, before, Error);
    KeysOfSeverity(normalize, before, Warning);
    KeysOfSeverity(normalize, after, Error);
    KeysOfSeverity(normalize, after, Warning);
  }

  /** Swapping the lists swaps new and resolved; and nothing is new or resolved exactly when errors and
    * warnings have the same keys as often. */
  lemma DiffSwaps(before: multiset<string>, after: multiset<string>)
    ensures DiffOf(after, before) == Swap(DiffOf(before, after))
    ensures DiffOf(before, after) == Diff(0, 0, 0, 0) <==>
            All(before, Mark(Error)) == All(after, Mark(Error)) && All(before, Mark(Warning)) == All(after, Mark(Warning))
  {
    hide Mark, Part;
    AllSame(before, after, Mark(Error));
    AllSame(before, after, Mark(Warning));
  }

  lemma AllSame(before: multiset<string>, after: multiset<string>, mark: string)
    ensures |All(after - before, mark)| == 0 && |All(before - after, mark)| == 0 <==> All(before, mark) == All(after, mark)
  {
    hide Part;
    if |All(after - before, mark)| == 0 && |All(before - after, mark)| == 0 {
      forall k ensures All(before, mark)[k] == All(after, mark)[k] {
        assert All(after - before, mark)[k] == 0 && All(before - after, mark)[k] == 0;
      }
      assert All(before, mark) == All(after, mark);
    }
    if All(before, mark) == All(after, mark) {
      forall k ensures All(after - before, mark)[k] == 0 && All(before - after, mark)[k] == 0 {
        assert All(before, mark)[k] == All(after, mark)[k];
      }
      assert All(after - before, mark) == multiset{} && All(before - after, mark) == multiset{};
    }
  }

  datatype Status = Errors | Warnings | Clean | Unavailable | Timeout
  datatype Summary = Summary(status: Status, fileErrors: nat, fileWarnings: nat, diff: Diff, baselineKnown: bool, totalItems: nat, items: seq<Item>)

  /** `summarizeDiagnostics`: against the baseline if it is of the same file and client, else against nothing. */
  method SummarizeDiagnostics(normalize: string -> string, after: Snapshot, baseline: Option<Snapshot>, maxItems: nat, overrideStatus: Option<Status>)
    returns (summary: Summary)
    ensures summary.baselineKnown <==> baseline.Some? && baseline.value.known && baseline.value.source == after.source && baseline.value.uri == after.uri
    ensures overrideStatus.Some? ==> summary == Summary(overrideStatus.value, 0, 0, Diff(0, 0, 0, 0), summary.baselineKnown, 0, [])
    ensures overrideStatus.None? ==>
              var before := if summary.baselineKnown then baseline.value.items else [];
              && summary.fileErrors == CountOf(after.items, Error) && summary.fileWarnings == CountOf(after.items, Warning)
              && summary.status == (if summary.fileErrors > 0 then Errors else if summary.fileWarnings > 0 then Warnings else Clean)
              && summary.diff == DiffOf(Keys(normalize, before), Keys(normalize, after.items))
              && summary.diff.newErrors - summary.diff.resolvedErrors == summary.fileErrors - CountOf(before, Error)
              && summary.diff.newWarnings - summary.diff.resolvedWarnings == summary.fileWarnings - CountOf(before, Warning)
              && summary.totalItems == |after.items| && summary.items <= after.items
              && |summary.items| == if maxItems < |after.items| then maxItems else |after.items|
  {
    hide All, Keys, CountOf, DiffOf;
    var known := baseline.Some? && baseline.value.known && baseline.value.source == after.source && baseline.value.uri == after.uri;
    if overrideStatus.Some? { return Summary(overrideStatus.value, 0, 0, Diff(0, 0, 0, 0), known, 0, []); }
    var before := if known then baseline.value.items else [];
    var beforeKeys := CountKeys(normalize, before);
    var afterKeys := CountKeys(normalize, after.items);
    var diff := DiffCounts(beforeKeys, afterKeys, Keys(normalize, before), Keys(normalize, after.items));
    DiffBalances(normalize, before, after.items);
    var errors, warnings := CountOf(after.items, Error), CountOf(after.items, Warning);
    summary := Summary(
      if errors > 0 then Errors else if warnings > 0 then Warnings else Clean, errors, warnings, diff, known,
      |after.items|, after.items[..if maxItems < |after.items| then maxItems else |after.items|]);
  }
}
