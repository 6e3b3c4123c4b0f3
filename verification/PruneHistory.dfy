/** A session branch as the commands write it (agent/extensions/prune.ts, lines 111-239) is an undo
  * stack of prunes. */
module PruneHistory {
  import opened PruneLog
  import opened Pruning
  import opened Wrappers

  // ---------------------------------------------------------------- what the commands append

  ghost predicate Listing(ids: seq<string>, elements: Ids)
  {
    Distinct(ids) && ToSet(ids) == elements
  }

  ghost predicate Fresh(log: Log, id: string)
  {
    forall i | 0 <= i < |log| :: log[i].id != id
  }

  /** `/prune` over these messages: it hides what was hidden and everything still completed. */
  ghost predicate PruneStep(log: Log, entry: Entry, messages: Messages)
  {
    var hidden := Hidden(log);
    var candidates := Completed(Prune(messages, hidden).messages, {});
    && Fresh(log, entry.id) && candidates != {}
    && StateOf(entry).Some? && StateOf(entry).value.Checkpoint?
    && Listing(StateOf(entry).value.toolCallIds, hidden + candidates)
    && Listing(StateOf(entry).value.previousToolCallIds, hidden)
  }

  /** `/prune restore`: it takes back the newest prune that was not restored, if its calls are still there. */
  ghost predicate RestoreStep(log: Log, entry: Entry, messages: Messages)
  {
    var target := FindRestorable(log);
    && Fresh(log, entry.id) && target.Some?
    && ToSet(target.value.toolCallIds) - ToSet(target.value.previousToolCallIds) <= Completed(messages, {})
    && StateOf(entry) == Some(Restoration(target.value.previousToolCallIds, target.value.entryId))
  }

  /** Anything else the session records, malformed prune entries included. */
  ghost predicate OtherStep(log: Log, entry: Entry)
  {
    Fresh(log, entry.id) && StateOf(entry) == None
  }

  /** All branches of a session, and the one it is on. */
  datatype Session = Session(branches: set<Log>, current: Log)

  ghost predicate Append(before: Session, after: Session, entry: Entry)
  {
    after.current == before.current + [entry] && after.branches == before.branches + {after.current}
  }

  ghost predicate Step(before: Session, after: Session)
  {
    || (exists entry, messages :: PruneStep(before.current, entry, messages) && Append(before, after, entry))
    || (exists entry, messages :: RestoreStep(before.current, entry, messages) && Append(before, after, entry))
    || (exists entry :: OtherStep(before.current, entry) && Append(before, after, entry))
    || (exists branch, k :: branch in before.branches && 0 <= k <= |branch| && after == before.(current := branch[..k]))
  }

  ghost predicate Run(run: seq<Session>)
  {
    && run != [] && run[0] == Session({[]}, [])
    && forall i | 0 <= i < |run| - 1 :: Step(run[i], run[i + 1])
  }

  // ---------------------------------------------------------------- the undo stack

  predicate Pushes(entry: Entry) { StateOf(entry).Some? && StateOf(entry).value.Checkpoint? }

  predicate Pops(entry: Entry) { StateOf(entry).Some? && StateOf(entry).value.Restoration? }

  function Pushed(entry: Entry): Restorable
    requires Pushes(entry)
  {
    Restorable(entry.id, StateOf(entry).value.toolCallIds, StateOf(entry).value.previousToolCallIds)
  }

  /** The branch read as an undo stack: a prune pushes, a restore pops. */
  function Stack(log: Log): seq<Restorable>
  {
    if log == [] then []
    else
      var n := |log| - 1;
      var below := Stack(log[..n]);
      if Pushes(log[n]) then below + [Pushed(log[n])]
      else if Pops(log[n]) && below != [] then below[..|below| - 1]
      else below
  }

  function Top(stack: seq<Restorable>): Ids
  {
    if stack == [] then {} else ToSet(stack[|stack| - 1].toolCallIds)
  }

  /** An entry that a command could have written at the end of this branch. */
  ghost predicate Extends(log: Log, entry: Entry)
  {
    && Fresh(log, entry.id)
    && (Pushes(entry) ==> ToSet(Pushed(entry).previousToolCallIds) == Hidden(log) && Hidden(log) < ToSet(Pushed(entry).toolCallIds))
    && (Pops(entry) ==>
          var target := FindRestorable(log);
          target.Some? && StateOf(entry).value == Restoration(target.value.previousToolCallIds, target.value.entryId))
  }

  ghost predicate Legal(log: Log)
  {
    log == [] || (Legal(log[..|log| - 1]) && Extends(log[..|log| - 1], log[|log| - 1]))
  }

  lemma {:induction false} StepsExtend(log: Log, entry: Entry, messages: Messages)
    ensures PruneStep(log, entry, messages) ==> Extends(log, entry)
    ensures RestoreStep(log, entry, messages) ==> Extends(log, entry)
    ensures OtherStep(log, entry) ==> Extends(log, entry)
  {
    hide StateOf, FindRestorable, Hidden, Completed, Prune;
    CompletedAfterPruning(messages, Hidden(log), {});
    if PruneStep(log, entry, messages) {
      var id :| id in Completed(Prune(messages, Hidden(log)).messages, {});
      assert id !in Hidden(log);
    }
  }

  lemma {:induction false} LegalPrefix(log: Log, k: nat)
    requires Legal(log) && k <= |log|
    ensures Legal(log[..k])
  {
    if k == |log| { assert log[..k] == log; }
    else {
      LegalPrefix(log[..|log| - 1], k);
      assert log[..|log| - 1][..k] == log[..k];
    }
  }

  lemma {:induction false} LegalAppend(log: Log, entry: Entry)
    requires Legal(log) && Extends(log, entry)
    ensures Legal(log + [entry])
  {
    assert (log + [entry])[..|log|] == log;
  }

  lemma {:induction false} StepKeepsLegal(before: Session, after: Session)
    requires Step(before, after) && Legal(before.current) && forall branch | branch in before.branches :: Legal(branch)
    ensures Legal(after.current) && forall branch | branch in after.branches :: Legal(branch)
  {
    hide PruneStep, RestoreStep, OtherStep, Extends, Legal;
    if entry, messages :| PruneStep(before.current, entry, messages) && Append(before, after, entry) {
      StepsExtend(before.current, entry, messages);
      LegalAppend(before.current, entry);
    } else if entry, messages :| RestoreStep(before.current, entry, messages) && Append(before, after, entry) {
      StepsExtend(before.current, entry, messages);
      LegalAppend(before.current, entry);
    } else if entry :| OtherStep(before.current, entry) && Append(before, after, entry) {
      StepsExtend(before.current, entry, []);
      LegalAppend(before.current, entry);
    } else {
      var branch, k :| branch in before.branches && 0 <= k <= |branch| && after == before.(current := branch[..k]);
      LegalPrefix(branch, k);
    }
  }

  /** Every branch of every reachable session was written by the commands. */
  lemma {:induction false} ReachableIsLegal(run: seq<Session>)
    requires Run(run)
    ensures var last := run[|run| - 1]; Legal(last.current) && forall branch | branch in last.branches :: Legal(branch)
  {
    hide Step, Legal;
    var n := |run| - 1;
    if n == 0 {
      NoLog();
    } else {
      assert run[..n][n - 1] == run[n - 1] && Run(run[..n]);
      ReachableIsLegal(run[..n]);
      StepKeepsLegal(run[n - 1], run[n]);
    }
  }

  lemma {:induction false} NoLog()
    ensures Legal([])
  {
  }

  // ---------------------------------------------------------------- both readings are the stack

  function Unrestored(prunes: seq<Restorable>, restored: Ids): seq<Restorable>
  {
    if prunes == [] then []
    else
      var n := |prunes| - 1;
      if prunes[n].entryId in restored then Unrestored(prunes[..n], restored) else Unrestored(prunes[..n], restored) + [prunes[n]]
  }

  ghost predicate DistinctEntries(prunes: seq<Restorable>)
  {
    forall i, j | 0 <= i < j < |prunes| :: prunes[i].entryId != prunes[j].entryId
  }

  lemma {:induction false} LastIsUnrestored(prunes: seq<Restorable>, restored: Ids)
    ensures var left := Unrestored(prunes, restored);
            LastUnrestored(prunes, restored) == if left == [] then None else Some(left[|left| - 1])
  {
    if prunes != [] { LastIsUnrestored(prunes[..|prunes| - 1], restored); }
  }

  lemma {:induction false} UnrestoredFrom(prunes: seq<Restorable>, restored: Ids)
    ensures forall p | p in Unrestored(prunes, restored) :: p in prunes && p.entryId !in restored
  {
    if prunes != [] { UnrestoredFrom(prunes[..|prunes| - 1], restored); }
  }

  /** Restoring the last one left leaves the others. */
  lemma {:induction false} UnrestoredPops(prunes: seq<Restorable>, restored: Ids)
    requires DistinctEntries(prunes) && Unrestored(prunes, restored) != []
    ensures var left := Unrestored(prunes, restored);
            Unrestored(prunes, restored + {left[|left| - 1].entryId}) == left[..|left| - 1]
  {
    var n := |prunes| - 1;
    var left := Unrestored(prunes, restored);
    var popped := left[|left| - 1].entryId;
    if prunes[n].entryId in restored {
      UnrestoredPops(prunes[..n], restored);
    } else {
      UnrestoredSame(prunes[..n], restored, popped);
    }
  }

  lemma {:induction false} UnrestoredSame(prunes: seq<Restorable>, restored: Ids, id: string)
    requires forall i | 0 <= i < |prunes| :: prunes[i].entryId != id
    ensures Unrestored(prunes, restored + {id}) == Unrestored(prunes, restored)
  {
    if prunes != [] { UnrestoredSame(prunes[..|prunes| - 1], restored, id); }
  }

  lemma {:induction false} MapSetAppends(prunes: seq<Restorable>, prune: Restorable)
    requires forall i | 0 <= i < |prunes| :: prunes[i].entryId != prune.entryId
    ensures MapSet(prunes, prune) == prunes + [prune]
  {
    if prunes != [] { MapSetAppends(prunes[1..], prune); }
  }

  /** The prunes of a branch are entries of it, each once. */
  ghost predicate FromLog(log: Log, prunes: seq<Restorable>)
  {
    && DistinctEntries(prunes)
    && (forall i | 0 <= i < |prunes| :: !Fresh(log, prunes[i].entryId))
    && (forall i | 0 <= i < |prunes| :: prunes[i].entryId in PruneEntries(log) && PruneEntries(log)[prunes[i].entryId] == prunes[i])
  }

  lemma {:induction false} FromLogDistinct(log: Log, prunes: seq<Restorable>)
    requires FromLog(log, prunes)
    ensures DistinctEntries(prunes)
  {
  }

  lemma {:induction false} FromLogAppend(log: Log, entry: Entry, prunes: seq<Restorable>)
    requires FromLog(log, prunes) && Fresh(log, entry.id)
    ensures forall i | 0 <= i < |prunes| :: prunes[i].entryId != entry.id
    ensures FromLog(log + [entry], if Pushes(entry) then prunes + [Pushed(entry)] else prunes)
  {
    hide StateOf, PruneEntries, DistinctEntries, Fresh, Prunes, Restored, Stack, ReadState, LatestEntry;
    EntryReads(log, entry);
    FreshAppend(log, entry);
    DistinctAppend(prunes, if Pushes(entry) then prunes + [Pushed(entry)] else prunes, entry.id);
  }

  lemma {:induction false} FreshAppend(log: Log, entry: Entry)
    ensures forall id :: Fresh(log + [entry], id) <==> Fresh(log, id) && id != entry.id
  {
    var longer := log + [entry];
    assert longer[|log|] == entry;
    forall id ensures Fresh(longer, id) <==> Fresh(log, id) && id != entry.id {
      if Fresh(longer, id) { assert forall i | 0 <= i < |log| :: longer[i] == log[i]; }
    }
  }

  lemma {:induction false} DistinctAppend(prunes: seq<Restorable>, all: seq<Restorable>, id: string)
    requires DistinctEntries(prunes) && forall i | 0 <= i < |prunes| :: prunes[i].entryId != id
    requires all == prunes || exists p: Restorable :: p.entryId == id && all == prunes + [p]
    ensures DistinctEntries(all)
  {
  }

  /** What one entry adds to each reading of a branch. */
  lemma {:induction false} EntryReads(log: Log, entry: Entry)
    ensures var longer := log + [entry];
            && ReadState(longer) == (if StateOf(entry).Some? then StateOf(entry) else ReadState(log))
            && LatestEntry(longer) == (if StateOf(entry).Some? then Some(entry) else LatestEntry(log))
            && Stack(longer) == (if Pushes(entry) then Stack(log) + [Pushed(entry)]
                                 else if Pops(entry) && Stack(log) != [] then Stack(log)[..|Stack(log)| - 1]
                                 else Stack(log))
            && Prunes(longer) == (if Pushes(entry) then MapSet(Prunes(log), Pushed(entry)) else Prunes(log))
            && PruneEntries(longer) == (if Pushes(entry) then PruneEntries(log)[entry.id := Pushed(entry)] else PruneEntries(log))
            && Restored(longer) == (if Pops(entry) && MapHas(Prunes(log), StateOf(entry).value.restoredEntryId)
                                    then Restored(log) + {StateOf(entry).value.restoredEntryId} else Restored(log))
  {
    hide StateOf, MapSet, MapHas;
    var longer := log + [entry];
    assert longer[..|log|] == log && longer[|log|] == entry;
  }

  ghost predicate Grows(stack: seq<Restorable>)
  {
    forall i | 0 <= i < |stack| :: ToSet(stack[i].previousToolCallIds) == Top(stack[..i]) && Top(stack[..i]) < ToSet(stack[i].toolCallIds)
  }

  lemma {:induction false} GrowsPush(stack: seq<Restorable>, prune: Restorable)
    requires Grows(stack) && ToSet(prune.previousToolCallIds) == Top(stack) && Top(stack) < ToSet(prune.toolCallIds)
    ensures Grows(stack + [prune])
  {
    hide Top;
    var longer := stack + [prune];
    assert longer[..|stack|] == stack;
    assert forall i | 0 <= i < |stack| :: longer[..i] == stack[..i];
  }

  lemma {:induction false} GrowsPop(stack: seq<Restorable>)
    requires Grows(stack) && stack != []
    ensures Grows(stack[..|stack| - 1])
    ensures ToSet(stack[|stack| - 1].previousToolCallIds) == Top(stack[..|stack| - 1])
  {
    hide Top;
    var n := |stack| - 1;
    assert forall i | 0 <= i < n :: stack[..n][..i] == stack[..i];
  }

  lemma {:induction false} PushUnrestored(log: Log, entry: Entry)
    requires FromLog(log, Prunes(log)) && Fresh(log, entry.id) && forall id | id in Restored(log) :: MapHas(Prunes(log), id)
    requires Pushes(entry)
    ensures var prune := Pushed(entry);
            && Prunes(log + [entry]) == Prunes(log) + [prune]
            && Unrestored(Prunes(log + [entry]), Restored(log + [entry])) == Unrestored(Prunes(log), Restored(log)) + [prune]
            && FromLog(log + [entry], Prunes(log + [entry]))
  {
    hide StateOf, PruneEntries, MapSet, Prunes, Restored;
    var prune := Pushed(entry);
    EntryReads(log, entry);
    FromLogAppend(log, entry, Prunes(log));
    MapSetAppends(Prunes(log), prune);
    assert (Prunes(log) + [prune])[..|Prunes(log)|] == Prunes(log);
  }

  lemma {:induction false} PopUnrestored(log: Log, entry: Entry)
    requires FromLog(log, Prunes(log)) && Fresh(log, entry.id) && FindRestorable(log).Some?
    requires Pops(entry) && StateOf(entry).value.restoredEntryId == FindRestorable(log).value.entryId
    ensures var left := Unrestored(Prunes(log), Restored(log));
            && left != [] && FindRestorable(log) == Some(left[|left| - 1])
            && Unrestored(Prunes(log + [entry]), Restored(log + [entry])) == left[..|left| - 1]
            && FromLog(log + [entry], Prunes(log + [entry]))
  {
    hide StateOf, PruneEntries, Prunes, Restored, Unrestored, FromLog, DistinctEntries;
    EntryReads(log, entry);
    FromLogAppend(log, entry, Prunes(log));
    FromLogDistinct(log, Prunes(log));
    LastIsUnrestored(Prunes(log), Restored(log));
    UnrestoredFrom(Prunes(log), Restored(log));
    UnrestoredPops(Prunes(log), Restored(log));
    var left := Unrestored(Prunes(log), Restored(log));
    assert left[|left| - 1] in left;
  }

  lemma {:induction false} RestoredWerePruned(log: Log)
    ensures forall id | id in Restored(log) :: MapHas(Prunes(log), id)
  {
    hide StateOf, MapHas, MapSet;
    if log != [] {
      var n := |log| - 1;
      RestoredWerePruned(log[..n]);
      if Pushes(log[n]) {
        forall id | MapHas(Prunes(log[..n]), id) ensures MapHas(MapSet(Prunes(log[..n]), Pushed(log[n])), id) {
          MapSetKeeps(Prunes(log[..n]), Pushed(log[n]), id);
        }
      }
    }
  }

  lemma {:induction false} MapSetKeeps(prunes: seq<Restorable>, prune: Restorable, id: string)
    requires MapHas(prunes, id)
    ensures MapHas(MapSet(prunes, prune), id)
  {
    var after := MapSet(prunes, prune);
    var i :| 0 <= i < |prunes| && prunes[i].entryId == id;
    if i == 0 {
      assert after[0].entryId == id;
    } else if prunes[0].entryId == prune.entryId {
      assert after[i] == prunes[i];
    } else {
      assert prunes[1..][i - 1].entryId == id;
      MapSetKeeps(prunes[1..], prune, id);
      var j :| 0 <= j < |after| - 1 && MapSet(prunes[1..], prune)[j].entryId == id;
      assert after[j + 1].entryId == id;
    }
  }

  ghost predicate ReadsAs(log: Log, stack: seq<Restorable>)
  {
    && FromLog(log, Prunes(log))
    && stack == Unrestored(Prunes(log), Restored(log))
    && Hidden(log) == Top(stack)
    && Grows(stack)
  }

  lemma {:induction false} EntryKeepsStack(log: Log, entry: Entry)
    requires ReadsAs(log, Stack(log)) && Extends(log, entry)
    ensures ReadsAs(log + [entry], Stack(log + [entry]))
  {
    hide StateOf, PruneEntries, Prunes, Restored, Unrestored, Grows, FromLog, Stack, FindRestorable, ReadState;
    EntryReads(log, entry);
    RestoredWerePruned(log);
    var stack := Stack(log);
    if Pushes(entry) {
      PushUnrestored(log, entry);
      GrowsPush(stack, Pushed(entry));
    } else if Pops(entry) {
      PopUnrestored(log, entry);
      GrowsPop(stack);
    } else {
      FromLogAppend(log, entry, Prunes(log));
    }
  }

  lemma {:induction false} LegalReadsAsStack(log: Log)
    requires Legal(log)
    ensures ReadsAs(log, Stack(log))
  {
    hide StateOf, Extends, ReadsAs;
    if log == [] {
      NoEntries();
    } else {
      var n := |log| - 1;
      LegalReadsAsStack(log[..n]);
      EntryKeepsStack(log[..n], log[n]);
      assert log == log[..n] + [log[n]];
    }
  }

  lemma {:induction false} NoEntries()
    ensures ReadsAs([], Stack([]))
  {
  }

  /** Every branch the commands can write reads as an undo stack. What is hidden is what the newest
    * unrestored prune hid; each prune recorded what the one below it hid, and hid more; and the prune
    * to restore next is the top. */
  lemma {:induction false} UndoStack(log: Log)
    requires Legal(log)
    ensures var stack := Stack(log);
            && Hidden(log) == Top(stack)
            && FindRestorable(log) == (if stack == [] then None else Some(stack[|stack| - 1]))
            && forall i | 0 <= i < |stack| ::
                 ToSet(stack[i].previousToolCallIds) == Top(stack[..i]) && Top(stack[..i]) < ToSet(stack[i].toolCallIds)
  {
    hide Stack, Prunes, Restored, Unrestored, FromLog, Hidden, Legal;
    LegalReadsAsStack(log);
    LastIsUnrestored(Prunes(log), Restored(log));
  }

  /** A prune pushes what it hides on what was hidden; a restore takes exactly the top off and shows
    * what it had hidden; no other entry changes anything. */
  lemma {:induction false} StepsOnStack(log: Log, entry: Entry)
    requires Legal(log) && Extends(log, entry)
    ensures var before, after := Stack(log), Stack(log + [entry]);
            && (Pushes(entry) ==> after == before + [Pushed(entry)] && Hidden(log) < Hidden(log + [entry]))
            && (Pops(entry) ==> before != [] && after == before[..|before| - 1] && Hidden(log + [entry]) == Top(after) < Hidden(log))
            && (StateOf(entry).None? ==> after == before && Hidden(log + [entry]) == Hidden(log))
  {
    hide StateOf, Stack, Prunes, Restored, Unrestored, FromLog, ReadState, Legal;
    EntryReads(log, entry);
    UndoStack(log);
    LegalAppend(log, entry);
    UndoStack(log + [entry]);
  }

  // ---------------------------------------------------------------- the status line

  lemma {:induction false} AdditionsCount(ids: seq<string>, previous: seq<string>)
    requires Distinct(ids)
    ensures |Additions(ids, previous)| == |ToSet(ids) - ToSet(previous)|
  {
    hide Without, ToSet, Distinct;
    WithoutFew(ToSet(previous));
    if ids == [] {
      NoIds();
    } else {
      var n := |ids| - 1;
      DistinctSplit(ids);
      AdditionsCount(ids[..n], previous);
      assert ids == ids[..n] + [ids[n]];
      WithoutAdd(ids[..n], ids[n], ToSet(previous));
      OneMore(ToSet(ids[..n]), ToSet(previous), ids[n]);
    }
  }

  lemma {:induction false} OneMore(before: Ids, gone: Ids, id: string)
    requires id !in before
    ensures |(before + {id}) - gone| == |before - gone| + if id in gone then 0 else 1
  {
    if id in gone {
      assert (before + {id}) - gone == before - gone;
    } else {
      assert (before + {id}) - gone == (before - gone) + {id};
    }
  }

  lemma {:induction false} NoIds()
    ensures ToSet([]) == {}
  {
  }

  lemma {:induction false} DistinctSplit(ids: seq<string>)
    requires Distinct(ids) && ids != []
    ensures var n := |ids| - 1;
            Distinct(ids[..n]) && ids[n] !in ToSet(ids[..n]) && ToSet(ids) == ToSet(ids[..n]) + {ids[n]}
  {
    var n := |ids| - 1;
    assert forall i | 0 <= i < n :: ids[..n][i] != ids[n];
    assert ids == ids[..n] + [ids[n]];
  }

  lemma {:induction false} TuiHides(log: Log)
    ensures Tui(log).hiddenToolCallIds == Hidden(log) && Tui(log).hiddenToolCalls == |Hidden(log)|
    ensures LatestEntry(log).Some? ==> StateOf(LatestEntry(log).value) == ReadState(log) && ReadState(log).Some?
    ensures LatestEntry(log).None? ==> ReadState(log).None?
  {
    hide StateOf, CountChangedToolCalls;
    if log != [] { TuiHides(log[..|log| - 1]); }
  }

  lemma {:induction false} StackIsDistinct(log: Log)
    ensures forall i | 0 <= i < |Stack(log)| :: Distinct(Stack(log)[i].toolCallIds)
  {
    hide StateOf;
    if log != [] {
      var n := |log| - 1;
      StackIsDistinct(log[..n]);
      if StateOf(log[n]).Some? { StatesAreDistinct(log[n]); }
    }
  }

  lemma {:induction false} TopIsRecorded(log: Log)
    requires Legal(log) && Stack(log) != []
    ensures var top := Stack(log)[|Stack(log)| - 1]; top.entryId in PruneEntries(log) && PruneEntries(log)[top.entryId] == top
  {
    hide Stack, Prunes, Restored, Unrestored, Hidden, Legal, PruneEntries;
    LegalReadsAsStack(log);
    UnrestoredFrom(Prunes(log), Restored(log));
    var top := Stack(log)[|Stack(log)| - 1];
    assert top in Stack(log) && top in Prunes(log);
  }

  /** The status line agrees with the branch after every entry: the same hidden calls, the entry
    * that last changed them, and the exact number that this change hid or showed. */
  lemma {:induction false} StatusLineIsExact(log: Log, entry: Entry)
    requires Legal(log) && Extends(log, entry)
    ensures var before, after, tui := Hidden(log), Hidden(log + [entry]), Tui(log + [entry]);
            && tui.hiddenToolCallIds == after && tui.hiddenToolCalls == |after|
            && (StateOf(entry).Some? ==>
                  && tui.latestCheckpointEntryId == Some(entry.id) && tui.restoring == Some(Pops(entry))
                  && tui.changedToolCalls == |(after - before) + (before - after)|)
            && (StateOf(entry).None? ==> tui == Tui(log))
  {
    hide StateOf, Stack, Prunes, Restored, Unrestored, ReadState, Legal, Hidden, PruneEntries, LatestEntry, Additions, FindRestorable;
    TuiHides(log + [entry]);
    EntryReads(log, entry);
    StepsOnStack(log, entry);
    UndoStack(log);
    if StateOf(entry).Some? {
      StatesAreDistinct(entry);
      var state := StateOf(entry).value;
      if state.Checkpoint? {
        AdditionsCount(state.toolCallIds, state.previousToolCallIds);
        HiddenByCheckpoint(log, entry);
        assert (Hidden(log + [entry]) - Hidden(log)) + (Hidden(log) - Hidden(log + [entry])) == Hidden(log + [entry]) - Hidden(log);
      } else {
        TopIsRecorded(log);
        StackIsDistinct(log);
        var top := Stack(log)[|Stack(log)| - 1];
        AdditionsCount(top.toolCallIds, top.previousToolCallIds);
        HiddenByRestoration(log, entry);
        assert (Hidden(log + [entry]) - Hidden(log)) + (Hidden(log) - Hidden(log + [entry])) == Hidden(log) - Hidden(log + [entry]);
      }
    }
  }

  lemma {:induction false} HiddenByCheckpoint(log: Log, entry: Entry)
    requires Pushes(entry) && Extends(log, entry)
    ensures Hidden(log + [entry]) == ToSet(StateOf(entry).value.toolCallIds) && Hidden(log) == ToSet(StateOf(entry).value.previousToolCallIds)
  {
    hide StateOf, ReadState, FindRestorable;
    EntryReads(log, entry);
  }

  lemma {:induction false} HiddenByRestoration(log: Log, entry: Entry)
    requires Legal(log) && Extends(log, entry) && Pops(entry)
    ensures Stack(log) != [] && Hidden(log) == ToSet(Stack(log)[|Stack(log)| - 1].toolCallIds)
    ensures Hidden(log + [entry]) == ToSet(Stack(log)[|Stack(log)| - 1].previousToolCallIds)
    ensures StateOf(entry).value.restoredEntryId == Stack(log)[|Stack(log)| - 1].entryId
  {
    hide StateOf, ReadState, FindRestorable, Stack, Legal;
    EntryReads(log, entry);
    UndoStack(log);
    assert Hidden(log) == Top(Stack(log));
  }

  // ---------------------------------------------------------------- what the model sees

  /** `findVisibleToolCallIds` */
  function Visible(messages: Messages, log: Log): Ids
  {
    Completed(Prune(messages, Hidden(log)).messages, {})
  }

  /** After a prune nothing completed is left in sight; a restore brings back exactly the calls that
    * the restored prune had hidden. */
  lemma {:induction false} VisibleAfterSteps(log: Log, entry: Entry, messages: Messages)
    requires Legal(log)
    ensures PruneStep(log, entry, messages) ==> Visible(messages, log + [entry]) == {}
    ensures RestoreStep(log, entry, messages) ==>
              && Visible(messages, log) !! (Hidden(log) - Hidden(log + [entry]))
              && Visible(messages, log + [entry]) == Visible(messages, log) + (Hidden(log) - Hidden(log + [entry]))
  {
    hide StateOf, Stack, Legal, Hidden, Completed, Prune, FindRestorable;
    StepsExtend(log, entry, messages);
    CompletedAfterPruning(messages, Hidden(log), {});
    CompletedAfterPruning(messages, Hidden(log + [entry]), {});
    if PruneStep(log, entry, messages) { HiddenByCheckpoint(log, entry); }
    if RestoreStep(log, entry, messages) {
      HiddenByRestoration(log, entry);
      UndoStack(log);
    }
  }

  /** All of it holds of every branch of every session the commands can produce. */
  lemma {:induction false} ReachableIsUndoStack(run: seq<Session>, log: Log)
    requires Run(run) && (log == run[|run| - 1].current || log in run[|run| - 1].branches)
    ensures Legal(log) && Hidden(log) == Top(Stack(log)) && Tui(log).hiddenToolCallIds == Hidden(log)
    ensures FindRestorable(log) == if Stack(log) == [] then None else Some(Stack(log)[|Stack(log)| - 1])
  {
    hide Run, Legal, Stack, Hidden, FindRestorable, Tui;
    ReachableIsLegal(run);
    UndoStack(log);
    TuiHides(log);
  }
}
