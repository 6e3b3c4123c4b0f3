/** The record of prunes and restores in a session branch, and the two readings of it:
  * src/prune/prune.ts, lines 125-173 and 284-308, and src/prune/tui-state.ts, lines 17-71. */
module PruneLog {
  import opened Json
  import opened Pruning
  import opened Wrappers

  datatype PruneState =
    | Checkpoint(toolCallIds: seq<string>, previousToolCallIds: seq<string>)
    | Restoration(toolCallIds: seq<string>, restoredEntryId: string)

  datatype Restorable = Restorable(entryId: string, toolCallIds: seq<string>, previousToolCallIds: seq<string>)

  /** A session entry; `custom` says that it is a custom entry of type "prune". */
  datatype Entry = Entry(id: string, custom: bool, data: Json)
  type Log = seq<Entry>

  function ToSet(ids: seq<string>): Ids { set id | id in ids }

  predicate Distinct(ids: seq<string>)
  {
    forall i, j | 0 <= i < j < |ids| :: ids[i] != ids[j]
  }

  // ---------------------------------------------------------------- entries

  /** `[...new Set(value)]` for an array of strings; anything else is malformed. */
  function Strings(items: seq<Json>): (ids: Option<seq<string>>)
    ensures ids.Some? ==> Distinct(ids.value) && forall id :: id in ids.value <==> Str(id) in items
    ensures ids.Some? <==> forall i | 0 <= i < |items| :: items[i].Str?
  {
    if items == [] then Some([])
    else
      var n := |items| - 1;
      assert forall i | 0 <= i < n :: items[..n][i] == items[i];
      assert items == items[..n] + [items[n]];
      match Strings(items[..n])
      case Some(ids) => if !items[n].Str? then None else if items[n].s in ids then Some(ids) else Some(ids + [items[n].s])
      case None => None
  }

  function ParseStringArray(value: Option<Json>): Option<seq<string>>
  {
    if value.Some? && value.value.Arr? then Strings(value.value.items) else None
  }

  function ParsePruneState(value: Json): Option<PruneState>
  {
    if !value.Obj? then None
    else
      var ids, operation := ParseStringArray(Lookup(value.fields, "toolCallIds")), Lookup(value.fields, "operation");
      if ids.None? then None
      else if operation == Some(Str("prune")) then
        var previous := ParseStringArray(Lookup(value.fields, "previousToolCallIds"));
        if previous.None? then None else Some(Checkpoint(ids.value, previous.value))
      else
        var restored := Lookup(value.fields, "restoredEntryId");
        if operation == Some(Str("restore")) && restored.Some? && restored.value.Str? then Some(Restoration(ids.value, restored.value.s))
        else None
  }

  function Quoted(ids: seq<string>): Json { Arr(seq(|ids|, i requires 0 <= i < |ids| => Str(ids[i]))) }

  /** The data of the entry that records a state. */
  function Recorded(state: PruneState): Json
  {
    match state
    case Checkpoint(ids, previous) =>
      Obj([Field("operation", Str("prune")), Field("toolCallIds", Quoted(ids)), Field("previousToolCallIds", Quoted(previous))])
    case Restoration(ids, restored) =>
      Obj([Field("operation", Str("restore")), Field("toolCallIds", Quoted(ids)), Field("restoredEntryId", Str(restored))])
  }

  lemma {:induction false} QuotedParses(ids: seq<string>)
    requires Distinct(ids)
    ensures Strings(Quoted(ids).items) == Some(ids)
  {
    if ids != [] {
      var n := |ids| - 1;
      QuotedParses(ids[..n]);
      assert Quoted(ids).items[..n] == Quoted(ids[..n]).items;
      assert ids == ids[..n] + [ids[n]];
    }
  }

  lemma ThreeFields(a: Field, b: Field, c: Field, key: string)
    ensures Lookup([a, b, c], key) ==
            if a.key == key then Some(a.value) else if b.key == key then Some(b.value) else if c.key == key then Some(c.value) else None
  {
    assert [a, b, c][1..] == [b, c] && [b, c][1..] == [c] && [c][1..] == [];
    assert Lookup([c], key) == if c.key == key then Some(c.value) else None;
    assert Lookup([b, c], key) == if b.key == key then Some(b.value) else Lookup([c], key);
  }

  /** What is written is read back. */
  lemma RecordedParses(state: PruneState)
    requires Distinct(state.toolCallIds) && (state.Checkpoint? ==> Distinct(state.previousToolCallIds))
    ensures ParsePruneState(Recorded(state)) == Some(state)
  {
    hide Lookup, Strings;
    var fields := Recorded(state).fields;
    assert fields == [fields[0], fields[1], fields[2]];
    QuotedParses(state.toolCallIds);
    ThreeFields(fields[0], fields[1], fields[2], "operation");
    ThreeFields(fields[0], fields[1], fields[2], "toolCallIds");
    if state.Checkpoint? {
      QuotedParses(state.previousToolCallIds);
      ThreeFields(fields[0], fields[1], fields[2], "previousToolCallIds");
    } else {
      ThreeFields(fields[0], fields[1], fields[2], "restoredEntryId");
      assert "restore" != "prune" && Lookup(fields, "operation") == Some(Str("restore"));
    }
  }

  function StateOf(entry: Entry): Option<PruneState>
  {
    if entry.custom then ParsePruneState(entry.data) else None
  }

  lemma StatesAreDistinct(entry: Entry)
    requires StateOf(entry).Some?
    ensures Distinct(StateOf(entry).value.toolCallIds)
    ensures StateOf(entry).value.Checkpoint? ==> Distinct(StateOf(entry).value.previousToolCallIds)
  {
    hide Lookup, Strings;
  }

  // ---------------------------------------------------------------- the current state

  function ReadState(log: Log): Option<PruneState>
  {
    if log == [] then None
    else
      var n := |log| - 1;
      if StateOf(log[n]).Some? then StateOf(log[n]) else ReadState(log[..n])
  }

  method ReadPruneState(log: Log) returns (state: Option<PruneState>)
    ensures state == ReadState(log)
  {
    var index := |log|;
    assert log[..index] == log;
    while index > 0
      invariant 0 <= index <= |log| && ReadState(log[..index]) == ReadState(log)
    {
      index := index - 1;
      assert log[..index + 1][..index] == log[..index];
      state := StateOf(log[index]);
      if state.Some? { return; }
    }
    return None;
  }

  /** The calls that the branch hides. */
  function Hidden(log: Log): Ids
  {
    match ReadState(log)
    case Some(state) => ToSet(state.toolCallIds)
    case None => {}
  }

  // ---------------------------------------------------------------- what can be restored

  /** `Map.set`: a key keeps the place it first had. */
  function MapSet(prunes: seq<Restorable>, prune: Restorable): (after: seq<Restorable>)
  {
    if prunes == [] then [prune]
    else if prunes[0].entryId == prune.entryId then [prune] + prunes[1..]
    else [prunes[0]] + MapSet(prunes[1..], prune)
  }

  predicate MapHas(prunes: seq<Restorable>, id: string)
  {
    exists i | 0 <= i < |prunes| :: prunes[i].entryId == id
  }

  /** The prunes of a branch, and which of them were restored. */
  function Prunes(log: Log): seq<Restorable>
  {
    if log == [] then []
    else
      var n := |log| - 1;
      match StateOf(log[n])
      case Some(Checkpoint(ids, previous)) => MapSet(Prunes(log[..n]), Restorable(log[n].id, ids, previous))
      case _ => Prunes(log[..n])
  }

  function Restored(log: Log): Ids
  {
    if log == [] then {}
    else
      var n := |log| - 1;
      match StateOf(log[n])
      case Some(Restoration(_, id)) => if MapHas(Prunes(log[..n]), id) then Restored(log[..n]) + {id} else Restored(log[..n])
      case _ => Restored(log[..n])
  }

  function LastUnrestored(prunes: seq<Restorable>, restored: Ids): Option<Restorable>
  {
    if prunes == [] then None
    else
      var n := |prunes| - 1;
      if prunes[n].entryId !in restored then Some(prunes[n]) else LastUnrestored(prunes[..n], restored)
  }

  function FindRestorable(log: Log): Option<Restorable> { LastUnrestored(Prunes(log), Restored(log)) }

  method FindRestorablePruneState(log: Log) returns (found: Option<Restorable>)
    ensures found == FindRestorable(log)
  {
    hide StateOf, LastUnrestored, MapSet, MapHas;
    var prunes: seq<Restorable>, restored: Ids := [], {};
    var next := 0;
    assert log[..0] == [];
    while next < |log|
      invariant next <= |log| && prunes == Prunes(log[..next]) && restored == Restored(log[..next])
    {
      assert log[..next + 1][..next] == log[..next];
      var state := StateOf(log[next]);
      if state.Some? {
        if state.value.Checkpoint? {
          prunes := MapSet(prunes, Restorable(log[next].id, state.value.toolCallIds, state.value.previousToolCallIds));
        } else if MapHas(prunes, state.value.restoredEntryId) {
          restored := restored + {state.value.restoredEntryId};
        }
      }
      next := next + 1;
    }
    assert log[..next] == log;
    found := NewestCandidate(prunes, restored);
  }

  method NewestCandidate(prunes: seq<Restorable>, restored: Ids) returns (found: Option<Restorable>)
    ensures found == LastUnrestored(prunes, restored)
  {
    var index := |prunes|;
    assert prunes[..index] == prunes;
    while index > 0
      invariant 0 <= index <= |prunes| && LastUnrestored(prunes[..index], restored) == LastUnrestored(prunes, restored)
    {
      index := index - 1;
      assert prunes[..index + 1][..index] == prunes[..index];
      if prunes[index].entryId !in restored { return Some(prunes[index]); }
    }
    return None;
  }

  // ---------------------------------------------------------------- the second reading

  datatype TuiState = TuiState(
    hiddenToolCallIds: Ids,
    latestCheckpointEntryId: Option<string>,
    restoring: Option<bool>,
    changedToolCalls: nat,
    hiddenToolCalls: nat)

  function Additions(ids: seq<string>, previous: seq<string>): (added: seq<string>)
  {
    Without(ids, ToSet(previous))
  }

  function CountChangedToolCalls(state: PruneState, prunes: map<string, Restorable>): nat
  {
    match state
    case Checkpoint(ids, previous) => |Additions(ids, previous)|
    case Restoration(_, id) =>
      if id in prunes then |Additions(prunes[id].toolCallIds, prunes[id].previousToolCallIds)| else 0
  }

  function PruneEntries(log: Log): map<string, Restorable>
  {
    if log == [] then map[]
    else
      var n := |log| - 1;
      match StateOf(log[n])
      case Some(Checkpoint(ids, previous)) => PruneEntries(log[..n])[log[n].id := Restorable(log[n].id, ids, previous)]
      case _ => PruneEntries(log[..n])
  }

  function LatestEntry(log: Log): Option<Entry>
  {
    if log == [] then None
    else
      var n := |log| - 1;
      if StateOf(log[n]).Some? then Some(log[n]) else LatestEntry(log[..n])
  }

  const EMPTY_TUI := TuiState({}, None, None, 0, 0)

  function Tui(log: Log): TuiState
  {
    var latest := LatestEntry(log);
    if latest.None? || StateOf(latest.value).None? then EMPTY_TUI
    else
      var state := StateOf(latest.value).value;
      var hidden := ToSet(state.toolCallIds);
      TuiState(hidden, Some(latest.value.id), Some(state.Restoration?), CountChangedToolCalls(state, PruneEntries(log)), |hidden|)
  }

  method ReducePruneTuiState(log: Log) returns (tui: TuiState)
    ensures tui == Tui(log)
  {
    var prunes: map<string, Restorable> := map[];
    var latest: Option<Entry> := None;
    var next := 0;
    assert log[..0] == [];
    while next < |log|
      invariant next <= |log| && prunes == PruneEntries(log[..next]) && latest == LatestEntry(log[..next])
      invariant latest.Some? ==> StateOf(latest.value).Some?
    {
      assert log[..next + 1][..next] == log[..next];
      var state := StateOf(log[next]);
      if state.Some? {
        if state.value.Checkpoint? {
          prunes := prunes[log[next].id := Restorable(log[next].id, state.value.toolCallIds, state.value.previousToolCallIds)];
        }
        latest := Some(log[next]);
      }
      next := next + 1;
    }
    assert log[..next] == log;
    if latest.None? { return EMPTY_TUI; }
    var state := StateOf(latest.value).value;
    var hidden := ToSet(state.toolCallIds);
    tui := TuiState(hidden, Some(latest.value.id), Some(state.Restoration?), CountChangedToolCalls(state, prunes), |hidden|);
  }
}
