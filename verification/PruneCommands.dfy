/** The commands that write the log: agent/extensions/prune.ts, lines 111-239. The session is an
  * object the host keeps; what a command adds to it is a step of the history. */
module PruneCommands {
  import opened PruneHistory
  import opened PruneLog
  import opened Pruning
  import opened StableJson
  import opened Wrappers

  ghost predicate InOrder(ids: seq<string>)
  {
    forall i, j | 0 <= i < j < |ids| :: KeyBefore(ids[i], ids[j])
  }

  lemma {:induction false} HasFirst(elements: Ids)
    requires elements != {}
    ensures exists x :: x in elements && forall y | y in elements :: !KeyBefore(y, x)
  {
    hide KeyBefore;
    var x :| x in elements;
    var rest := elements - {x};
    if rest == {} {
      assert elements == {x};
      KeyOrderTotal(x, x);
    } else {
      HasFirst(rest);
      var first :| first in rest && forall y | y in rest :: !KeyBefore(y, first);
      if KeyBefore(x, first) {
        forall y | y in elements ensures !KeyBefore(y, x) {
          KeyOrderTotal(x, y);
          if y != x && KeyBefore(y, x) {
            KeyOrderTransitive(y, x, first);
            assert false;
          }
        }
      } else {
        assert first in elements && forall y | y in elements :: y == x || y in rest;
      }
    }
  }

  ghost predicate Sorting(elements: Ids, ids: seq<string>, rest: Ids)
  {
    && ToSet(ids) !! rest && ToSet(ids) + rest == elements && Distinct(ids) && InOrder(ids)
    && forall x, y | x in ids && y in rest :: KeyBefore(x, y)
  }

  lemma SortingTakes(elements: Ids, ids: seq<string>, rest: Ids, first: string)
    requires Sorting(elements, ids, rest) && first in rest && forall y | y in rest :: !KeyBefore(y, first)
    ensures Sorting(elements, ids + [first], rest - {first})
  {
    hide KeyBefore;
    var longer := ids + [first];
    assert forall x :: x in longer <==> x in ids || x == first;
    assert ToSet(longer) == ToSet(ids) + {first};
    assert forall i | 0 <= i < |ids| :: ids[i] in ids;
    forall y | y in rest - {first} ensures KeyBefore(first, y) { KeyOrderTotal(first, y); }
  }

  /** `[...elements].sort()` */
  method Sort(elements: Ids) returns (ids: seq<string>)
    ensures Listing(ids, elements) && InOrder(ids)
  {
    hide KeyBefore;
    ids := [];
    var rest := elements;
    while rest != {}
      invariant Sorting(elements, ids, rest)
      decreases |rest|
    {
      HasFirst(rest);
      var first :| first in rest && forall y | y in rest :: !KeyBefore(y, first);
      SortingTakes(elements, ids, rest, first);
      ids := ids + [first];
      rest := rest - {first};
    }
  }

  /** The branch the session is on. */
  class Branch {
    var entries: Log

    constructor ()
      ensures entries == []
    {
      entries := [];
    }

    /** `appendEntry`: the session gives every entry an id of its own. */
    method AppendEntry(id: string, state: PruneState)
      modifies this
      ensures entries == old(entries) + [Entry(id, true, Recorded(state))]
    {
      entries := entries + [Entry(id, true, Recorded(state))];
    }

    /** `selectPrunableToolTransactions` */
    method SelectPrunable(messages: Messages) returns (previouslyPruned: Ids, candidates: Ids, afterResult: PruneResult)
      ensures previouslyPruned == Hidden(entries)
      ensures candidates == Completed(Prune(messages, previouslyPruned).messages, {}) == Completed(messages, {}) - previouslyPruned
      ensures afterResult == Prune(Prune(messages, previouslyPruned).messages, candidates)
      ensures afterResult.messages == Prune(messages, previouslyPruned + candidates).messages
    {
      hide Prune, Completed, ReadState;
      var state := ReadPruneState(entries);
      previouslyPruned := if state.Some? then ToSet(state.value.toolCallIds) else {};
      var before := PruneToolTransactions(messages, previouslyPruned);
      candidates := FindCompletedToolCallIds(before.messages, {});
      afterResult := PruneToolTransactions(before.messages, candidates);
      CompletedAfterPruning(messages, previouslyPruned, {});
      PruneTwice(messages, previouslyPruned, candidates);
    }

    method AppendPruneState(id: string, previouslyPruned: Ids, candidates: Ids)
      modifies this
      ensures |entries| == |old(entries)| + 1 && entries[..|old(entries)|] == old(entries) && entries[|old(entries)|].id == id
      ensures Pushes(entries[|old(entries)|])
      ensures Listing(Pushed(entries[|old(entries)|]).toolCallIds, previouslyPruned + candidates)
      ensures Listing(Pushed(entries[|old(entries)|]).previousToolCallIds, previouslyPruned)
    {
      hide ParsePruneState, Recorded, KeyBefore;
      var ids := Sort(previouslyPruned + candidates);
      var previous := Sort(previouslyPruned);
      RecordedParses(Checkpoint(ids, previous));
      AppendEntry(id, Checkpoint(ids, previous));
    }

    /** `/prune` and `/prune force`; `wanted` is the verdict of the cost preview. */
    method RunPrune(messages: Messages, wanted: bool, id: string) returns (pruned: bool)
      requires Fresh(entries, id)
      modifies this
      ensures pruned <==> wanted && Completed(messages, {}) - Hidden(old(entries)) != {}
      ensures if pruned then
                |entries| == |old(entries)| + 1 && entries[..|old(entries)|] == old(entries)
                && PruneStep(old(entries), entries[|old(entries)|], messages)
              else entries == old(entries)
    {
      hide StateOf, Completed, Prune, Hidden;
      var previouslyPruned, candidates, _ := SelectPrunable(messages);
      if candidates == {} || !wanted { return false; }
      AppendPruneState(id, previouslyPruned, candidates);
      return true;
    }

    /** `/prune restore`: refused when there is nothing to restore, or when a call it would bring back
      * is no longer in the conversation. */
    method RunRestore(messages: Messages, id: string) returns (restored: bool)
      requires Fresh(entries, id)
      modifies this
      ensures restored <==>
                var target := FindRestorable(old(entries));
                target.Some? && ToSet(target.value.toolCallIds) - ToSet(target.value.previousToolCallIds) <= Completed(messages, {})
      ensures if restored then
                |entries| == |old(entries)| + 1 && entries[..|old(entries)|] == old(entries)
                && RestoreStep(old(entries), entries[|old(entries)|], messages)
              else entries == old(entries)
    {
      hide ParsePruneState, Recorded, FindRestorable, Completed, Stack;
      var target := FindRestorablePruneState(entries);
      if target.None? { return false; }
      var restoredIds := ToSet(target.value.toolCallIds) - ToSet(target.value.previousToolCallIds);
      var completed := FindCompletedToolCallIds(messages, {});
      if !(restoredIds <= completed) { return false; }
      RestorableIsDistinct(entries);
      var state := Restoration(target.value.previousToolCallIds, target.value.entryId);
      RecordedParses(state);
      AppendEntry(id, state);
      return true;
    }
  }

  lemma {:induction false} PrunesAreDistinct(log: Log)
    ensures forall p | p in Prunes(log) :: Distinct(p.toolCallIds) && Distinct(p.previousToolCallIds)
  {
    hide StateOf, MapSet;
    if log != [] {
      var n := |log| - 1;
      PrunesAreDistinct(log[..n]);
      if Pushes(log[n]) {
        StatesAreDistinct(log[n]);
        MapSetElements(Prunes(log[..n]), Pushed(log[n]));
      }
    }
  }

  lemma {:induction false} MapSetElements(prunes: seq<Restorable>, prune: Restorable)
    ensures forall p | p in MapSet(prunes, prune) :: p == prune || p in prunes
  {
    if prunes != [] { MapSetElements(prunes[1..], prune); }
  }

  lemma RestorableIsDistinct(log: Log)
    ensures FindRestorable(log).Some? ==> Distinct(FindRestorable(log).value.previousToolCallIds)
  {
    hide Prunes, Restored;
    PrunesAreDistinct(log);
    LastIsUnrestored(Prunes(log), Restored(log));
    UnrestoredFrom(Prunes(log), Restored(log));
    var left := Unrestored(Prunes(log), Restored(log));
    if left != [] { assert left[|left| - 1] in left; }
  }
}
