/** The promises of document synchronisation, over every run of interleaved operations. */
module DocumentGuarantees {
  import opened DocumentOrder
  import opened DocumentRuns
  import opened DocumentTable
  import opened DocumentTasks
  import opened LspProtocol
  import opened TextEdits
  import opened Utf16
  import opened Wrappers

  // ---------------------------------------------------------------- agreement

  /** Every notification was legal, and a document nobody has a notification under way about is
    * open at the server exactly when the table says so, with the same text and version. */
  ghost predicate InStep(w: World)
  {
    !w.breach && (w.link == Up ==> forall u: Uri | u !in w.inFlight :: EntryAgrees(Get(w.table.states, u), Get(w.server, u)))
  }

  ghost predicate EveryRunInStep(config: Config)
  {
    forall actions :: Run(config, actions).Some? ==> InStep(Run(config, actions).value)
  }

  /** Client and server stay in step over every run exactly when the server is told of openings
    * if and only if it is told of changes. */
  lemma {:induction false} InStepExactlyWhenCoherent(config: Config)
    ensures EveryRunInStep(config) <==> Coherent(config.policy)
  {
    if Coherent(config.policy) {
      forall actions | Run(config, actions).Some? ensures InStep(Run(config, actions).value) {
        RunInv(config, actions);
        var w := Run(config, actions).value;
        if w.link == Up {
          forall u: Uri | u !in w.inFlight ensures EntryAgrees(Get(w.table.states, u), Get(w.server, u)) { assert DocInv(w, u); }
        }
      }
    } else {
      var actions := OutOfStep(config);
    }
  }

  /** When all work is done, table and server tell the same story about every document. */
  lemma {:induction false} QuietMeansAgreement(config: Config, actions: seq<Action>, u: Uri)
    requires Coherent(config.policy) && Run(config, actions).Some?
    requires var w := Run(config, actions).value; w.link == Up && AllFinished(w)
    ensures var w := Run(config, actions).value;
            EntrySound(config, u, Get(w.table.states, u), Get(w.server, u))
  {
    RunInv(config, actions);
    assert DocInv(Run(config, actions).value, u);
  }

  // ---------------------------------------------------------------- what goes wrong otherwise

  const A: Text := [65]
  const B: Text := [66]

  lemma {:induction false} RunStep(config: Config, actions: seq<Action>, a: Action)
    requires Run(config, actions).Some? && Enabled(Run(config, actions).value, a)
    ensures Run(config, actions + [a]) == Some(Next(Run(config, actions).value, a))
  {
    assert (actions + [a])[..|actions + [a]| - 1] == actions;
  }

  lemma {:induction false} EditOfAB()
    ensures ValidEdit(A, B, 0, 0) && KeepsMost(A, B, 0, 0)
  {
    assert A[0] != B[0];
  }

  const FIRST := [Enqueue("a", Sync(A, true)), Start(0, Hint(None, 0, 0))]
  const SECOND := [Enqueue("a", Sync(B, true)), Start(1, Hint(None, 0, 0))]

  /** The first operation is queued and nothing else has happened. */
  lemma {:induction false} OneQueued(config: Config)
    ensures Run(config, FIRST[..1]) == Some(Queue(Fresh(config), "a", Sync(A, true)))
    ensures Enabled(Queue(Fresh(config), "a", Sync(A, true)), FIRST[1])
  {
    RunStep(config, [], FIRST[0]);
    assert [] + [FIRST[0]] == FIRST[..1];
  }

  /** A world in which the first version is recorded, open or not, and all work is done. */
  ghost predicate FirstDone(w: World, config: Config, open: bool)
  {
    && w.config == config && w.link == Up && !w.breach && w.inFlight == map[]
    && |w.tasks| == 1 && w.tasks[0].uri == "a" && w.tasks[0].pc.Finished? && w.queues == map["a" := 0]
    && w.table.states.Keys == {"a"} && w.table.states["a"].text == A && w.table.states["a"].open == open
    && Get(w.server, "a") == if open then Some(ServerDocument(config.language("a"), 1, A)) else None
  }

  lemma {:induction false} FirstSilent(config: Config)
    requires !config.policy.openClose
    ensures Run(config, FIRST).Some? && FirstDone(Run(config, FIRST).value, config, false)
  {
    OneQueued(config);
    RunStep(config, FIRST[..1], FIRST[1]);
    assert FIRST[..1] + [FIRST[1]] == FIRST;
  }

  lemma {:induction false} FirstOpened(config: Config)
    requires config.policy.openClose
    ensures var w := Run(config, FIRST + [Confirm(0)]); w.Some? && FirstDone(w.value, config, true)
  {
    OneQueued(config);
    RunStep(config, FIRST[..1], FIRST[1]);
    assert FIRST[..1] + [FIRST[1]] == FIRST;
    RunStep(config, FIRST, Confirm(0));
  }

  /** The second version, with the table's entry open and the server told of no changes, or the reverse. */
  lemma {:induction false} SecondGoesWrong(config: Config, actions: seq<Action>, open: bool)
    requires Run(config, actions).Some? && FirstDone(Run(config, actions).value, config, open)
    requires open == config.policy.openClose && !Coherent(config.policy)
    ensures var w := Run(config, actions + SECOND); w.Some? && !InStep(w.value)
  {
    EditOfAB();
    var w := Run(config, actions).value;
    var w1 := Next(w, SECOND[0]);
    RunStep(config, actions, SECOND[0]);
    assert w1.tasks[1] == Task("a", Sync(B, true), Some(0), Waiting) && w1.tasks[0] == w.tasks[0];
    hide ValidEdit, KeepsMost;
    assert GoodHint(w1, 1, Hint(None, 0, 0));
    RunStep(config, actions + [SECOND[0]], SECOND[1]);
    assert actions + [SECOND[0]] + [SECOND[1]] == actions + SECOND;
    var w2 := Next(w1, SECOND[1]);
    assert open ==> !EntryAgrees(Get(w2.table.states, "a"), Get(w2.server, "a"));
  }

  /** Told of openings but not of changes, the server keeps the first text under the first
    * version; told of changes but not of openings, it is sent a change to a closed document. */
  lemma {:induction false} OutOfStep(config: Config) returns (actions: seq<Action>)
    requires !Coherent(config.policy)
    ensures Run(config, actions).Some? && !InStep(Run(config, actions).value)
  {
    if config.policy.openClose {
      FirstOpened(config);
      SecondGoesWrong(config, FIRST + [Confirm(0)], true);
      return FIRST + [Confirm(0)] + SECOND;
    }
    FirstSilent(config);
    SecondGoesWrong(config, FIRST, false);
    return FIRST + SECOND;
  }

  // ---------------------------------------------------------------- order, answers, versions

  /** Operations on one URI run one at a time, in the order they were asked for. */
  lemma {:induction false} ArrivalOrder(config: Config, actions: seq<Action>)
    requires Run(config, actions).Some?
    ensures OneAtATime(Run(config, actions).value.tasks)
  {
    RunOrders(config, actions);
  }

  /** A retained entry never goes back to an earlier version, and new text means a new version. */
  ghost predicate VersionsAdvance(before: map<Uri, DocumentState>, after: map<Uri, DocumentState>, u: Uri)
  {
    u in before && u in after ==>
      before[u].version <= after[u].version && (before[u].text != after[u].text ==> before[u].version < after[u].version)
  }

  /** In every step of every run, whatever the server can do. */
  lemma {:induction false} StepsAdvanceVersions(config: Config, actions: seq<Action>, a: Action, u: Uri)
    requires Run(config, actions).Some? && Enabled(Run(config, actions).value, a)
    ensures var w := Run(config, actions).value; VersionsAdvance(w.table.states, Next(w, a).table.states, u)
  {
    hide Ordered, Enabled, Next;
    RunOrders(config, actions);
    NextAdvances(Run(config, actions).value, a, u);
  }

  lemma {:induction false} NextAdvances(w: World, a: Action, u: Uri)
    requires Ordered(w) && Enabled(w, a)
    ensures VersionsAdvance(w.table.states, Next(w, a).table.states, u)
  {
    hide Ordered, GoodHint, StartStep, ConfirmStep, OpenStep, Table.Valid;
    match a
    case Start(id, hint) => StartAdvances(w, id, hint, u);
    case Confirm(id) => ConfirmAdvances(w, id, u);
    case Resume(id, hint) =>
      OrderedShape(w, id);
      OpenAdvances(w, id, 1, u);
    case _ =>
  }

  lemma {:induction false} CommitAdvances(w: World, id: TaskId, version: nat, open: bool, u: Uri)
    requires id < |w.tasks| && (w.tasks[id].uri in w.table.states ==> w.table.states[w.tasks[id].uri].version < version)
    ensures VersionsAdvance(w.table.states, Committed(w, id, version, open).table.states, u)
  {
    hide Table.Valid;
  }

  lemma {:induction false} OpenAdvances(w: World, id: TaskId, version: nat, u: Uri)
    requires id < |w.tasks| && (w.tasks[id].uri in w.table.states ==> w.table.states[w.tasks[id].uri].version < version)
    ensures VersionsAdvance(w.table.states, OpenStep(w, id, version).table.states, u)
  {
    hide Committed, Table.Valid;
    CommitAdvances(w, id, version, false, u);
  }

  // Only a commit, a use or a removal changes the table; sending and waiting do not.

  lemma {:induction false} SendKeepsTable(w: World, id: TaskId, note: Notification)
    requires id < |w.tasks|
    ensures Send(w, id, note).table == w.table
  {
    hide Apply;
  }

  lemma {:induction false} AfterSyncKeepsTable(w: World, id: TaskId)
    requires id < |w.tasks|
    ensures AfterSync(w, id).table == w.table
  {
  }

  lemma {:induction false} UseAdvances(w: World, id: TaskId, u: Uri)
    requires id < |w.tasks| && w.tasks[id].uri in w.table.states
    ensures VersionsAdvance(w.table.states, UseStep(w, id).table.states, u)
  {
    hide AfterSync, Table.Valid, Table.Touch, Table.MarkPersistent;
    var uri := w.tasks[id].uri;
    UseEntry(w.table, uri);
    AfterSyncKeepsTable(w.(table := w.table.MarkPersistent(uri)), id);
    AfterSyncKeepsTable(w.(table := w.table.Touch(uri)), id);
  }

  lemma {:induction false} ChangeAdvances(w: World, id: TaskId, hint: Hint, u: Uri)
    requires id < |w.tasks| && GoodHint(w, id, hint) && IsSync(w.tasks[id].op) && w.tasks[id].uri in w.table.states
    ensures VersionsAdvance(w.table.states, ChangeStep(w, id, hint).table.states, u)
  {
    hide GoodHint, Send, Committed, ContentFor, Table.Valid;
    HintIsValid(w, id, hint);
    var uri, kind := w.tasks[id].uri, w.config.policy.change;
    var previous := w.table.states[uri];
    var content := ContentFor(kind, previous.text, TextOf(w.tasks[id].op), hint.prefix, hint.suffix);
    SendKeepsTable(w.(table := w.table.SetPending(uri, previous.version + 1)), id, DidChange(uri, previous.version + 1, content));
    CommitAdvances(w, id, previous.version + 1, previous.open, u);
  }

  lemma {:induction false} SyncAdvances(w: World, id: TaskId, hint: Hint, u: Uri)
    requires id < |w.tasks| && GoodHint(w, id, hint) && IsSync(w.tasks[id].op)
    ensures VersionsAdvance(w.table.states, SyncStep(w, id, hint).table.states, u)
  {
    hide GoodHint, OpenStep, UseStep, ChangeStep, Table.Valid;
    if w.tasks[id].uri in w.table.states {
      OpenAdvances(w, id, w.table.states[w.tasks[id].uri].version + 1, u);
      UseAdvances(w, id, u);
      ChangeAdvances(w, id, hint, u);
    } else {
      OpenAdvances(w, id, 1, u);
    }
  }

  lemma {:induction false} StartAdvances(w: World, id: TaskId, hint: Hint, u: Uri)
    requires id < |w.tasks| && GoodHint(w, id, hint)
    ensures VersionsAdvance(w.table.states, StartStep(w, id, hint).table.states, u)
  {
    hide GoodHint, Table.Valid, Table.Touch, SyncStep, Send;
    if CacheHit(w, id) {
      UseEntry(w.table, w.tasks[id].uri);
    } else if IsSync(w.tasks[id].op) {
      SyncAdvances(w, id, hint, u);
    } else {
      SendKeepsTable(w, id, DidClose(w.tasks[id].uri));
    }
  }

  lemma {:induction false} ConfirmAdvances(w: World, id: TaskId, u: Uri)
    requires Ordered(w) && Enabled(w, Confirm(id))
    ensures VersionsAdvance(w.table.states, ConfirmStep(w, id).table.states, u)
  {
    hide Ordered, Table.Valid, Committed;
    var uri, note := w.tasks[id].uri, w.tasks[id].pc.note;
    OrderedShape(w, id);
    if !note.DidClose? {
      var settled := w.(inFlight := w.inFlight - {uri});
      CommitAdvances(settled, id, note.version, if note.DidOpen? then true else uri in w.table.states && w.table.states[uri].open, u);
    }
  }

  // ---------------------------------------------------------------- no operation waits forever

  /** The operation can take its next step, or waits only for the server. */
  ghost predicate CanMove(w: World, t: TaskId)
    requires t < |w.tasks|
  {
    match w.tasks[t].pc
    case Waiting => w.tasks[t].after.Some? ==> w.tasks[t].after.value < |w.tasks| && w.tasks[w.tasks[t].after.value].pc.Finished?
    case Evicting(child) => child < |w.tasks| && w.tasks[child].pc.Finished?
    case Finished(_, _) => false
    case _ => true
  }

  /** Operation `s` cannot go on before `t` has ended, and `t` has not. */
  ghost predicate WaitsFor(w: World, s: TaskId, t: TaskId)
  {
    && s < |w.tasks| && t < |w.tasks| && !w.tasks[t].pc.Finished?
    && (w.tasks[s].pc == Evicting(t) || (w.tasks[s].pc.Waiting? && w.tasks[s].after == Some(t)))
  }

  ghost predicate Blocked(w: World, s: TaskId) { exists t :: WaitsFor(w, s, t) }

  /** Each operation waits for the next. */
  ghost predicate WaitChain(w: World, path: seq<TaskId>)
  {
    path != [] && forall i | 0 <= i < |path| - 1 :: WaitsFor(w, path[i], path[i + 1])
  }

  /** In every run, no operation waits for itself, directly or through others. */
  lemma {:induction false} NoWaitCycle(config: Config, actions: seq<Action>, path: seq<TaskId>)
    requires Run(config, actions).Some? && WaitChain(Run(config, actions).value, path) && |path| > 1
    ensures path[0] != path[|path| - 1]
  {
    hide Run, Ordered;
    RunOrders(config, actions);
    var w := Run(config, actions).value;
    assert WaitsFor(w, path[0], path[1]);
    ChainFalls(w, path);
  }

  /** Waits lead back to earlier operations, but for the last one: an eviction waits for a close that had
    * no queue in front of it. */
  lemma {:induction false} ChainFalls(w: World, path: seq<TaskId>)
    requires Ordered(w) && WaitChain(w, path) && |path| > 1
    ensures path[|path| - 1] < path[0] || !Blocked(w, path[|path| - 1])
  {
    hide Ordered;
    var n := |path| - 1;
    assert WaitsFor(w, path[n - 1], path[n]);
    WaitFalls(w, path[n - 1], path[n]);
    if n > 1 {
      assert WaitChain(w, path[..n]) by {
        forall i | 0 <= i < n - 1 ensures WaitsFor(w, path[..n][i], path[..n][i + 1]) { assert WaitsFor(w, path[i], path[i + 1]); }
      }
      ChainFalls(w, path[..n]);
    }
  }

  lemma {:induction false} WaitFalls(w: World, s: TaskId, t: TaskId)
    requires Ordered(w) && WaitsFor(w, s, t)
    ensures t < s || !Blocked(w, t)
  {
    OrderedShape(w, s);
    OrderedShape(w, t);
  }

  /** An unfinished operation can move exactly when it waits for no other. */
  lemma {:induction false} MovesUnlessWaiting(w: World, t: TaskId)
    requires Ordered(w) && t < |w.tasks| && !w.tasks[t].pc.Finished?
    ensures CanMove(w, t) <==> !Blocked(w, t)
  {
    OrderedShape(w, t);
    var task := w.tasks[t];
    if task.pc.Waiting? && task.after.Some? {
      assert !w.tasks[task.after.value].pc.Finished? ==> WaitsFor(w, t, task.after.value);
    } else if task.pc.Evicting? {
      assert !w.tasks[task.pc.child].pc.Finished? ==> WaitsFor(w, t, task.pc.child);
    }
  }

  /** In every run, the chain of waits from any unfinished operation ends at one that can move. */
  lemma {:induction false} WaitsEnd(config: Config, actions: seq<Action>, t: TaskId) returns (path: seq<TaskId>)
    requires Run(config, actions).Some?
    requires var w := Run(config, actions).value; t < |w.tasks| && !w.tasks[t].pc.Finished?
    ensures var w := Run(config, actions).value;
            WaitChain(w, path) && path[0] == t && path[|path| - 1] < |w.tasks| && CanMove(w, path[|path| - 1])
  {
    hide Run, Ordered;
    RunOrders(config, actions);
    path := ChainFrom(Run(config, actions).value, t);
  }

  lemma {:induction false} ChainFrom(w: World, t: TaskId) returns (path: seq<TaskId>)
    requires Ordered(w) && t < |w.tasks| && !w.tasks[t].pc.Finished?
    ensures WaitChain(w, path) && path[0] == t && path[|path| - 1] < |w.tasks| && CanMove(w, path[|path| - 1])
    decreases t
  {
    hide Ordered;
    MovesUnlessWaiting(w, t);
    if CanMove(w, t) { return [t]; }
    var next: TaskId :| WaitsFor(w, t, next);
    WaitFalls(w, t, next);
    if next < t {
      var rest := ChainFrom(w, next);
      path := [t] + rest;
      forall i | 0 < i < |path| - 1 ensures WaitsFor(w, path[i], path[i + 1]) { assert WaitsFor(w, rest[i - 1], rest[i - 1 + 1]); }
    } else {
      MovesUnlessWaiting(w, next);
      path := [t, next];
    }
  }

  /** `evictionCandidate` and `incrementalContentChange` always have an answer. */
  lemma {:induction false} HintExists(w: World, id: TaskId) returns (hint: Hint)
    requires id < |w.tasks|
    ensures GoodHint(w, id, hint)
  {
    hide ValidEdit, KeepsMost, Table.Valid;
    var task := w.tasks[id];
    var victim := LeastRecentlyUsed(w.table, w.queues.Keys, task.uri, w.table.states.Keys);
    var prefix, suffix := 0, 0;
    if task.uri in w.table.states && IsSync(task.op) {
      prefix, suffix := BestEdit(w.table.states[task.uri].text, TextOf(task.op));
    }
    hint := Hint(victim, prefix, suffix);
  }

  lemma {:induction false} LeastRecentlyUsed(t: Table, queued: set<Uri>, exclude: Uri, rest: set<Uri>) returns (victim: Option<Uri>)
    requires t.Valid() && rest <= t.states.Keys
    ensures victim.Some? ==> t.Evictable(queued, exclude, victim.value) && victim.value in rest
    ensures victim.Some? ==> forall u | t.Evictable(queued, exclude, u) && u in rest && u != victim.value ::
      t.states[victim.value].lastUsed < t.states[u].lastUsed
    ensures victim.None? ==> forall u | u in rest :: !t.Evictable(queued, exclude, u)
    decreases rest
  {
    if rest == {} { return None; }
    var u :| u in rest;
    victim := LeastRecentlyUsed(t, queued, exclude, rest - {u});
    if t.Evictable(queued, exclude, u) && (victim.None? || t.states[u].lastUsed < t.states[victim.value].lastUsed) {
      victim := Some(u);
    }
  }

  lemma {:induction false} BestEdit(previous: Text, next: Text) returns (prefix: nat, suffix: nat)
    ensures ValidEdit(previous, next, prefix, suffix) && KeepsMost(previous, next, prefix, suffix)
  {
    prefix := BestPrefix(previous, next, |previous|);
    suffix := BestSuffix(previous, next, prefix, |previous|);
  }

  lemma {:induction false} BestPrefix(previous: Text, next: Text, bound: nat) returns (prefix: nat)
    ensures CutsPrefix(previous, next, prefix)
    ensures forall p: nat | CutsPrefix(previous, next, p) && p <= bound :: p <= prefix
  {
    if bound == 0 || CutsPrefix(previous, next, bound) { return bound; }
    prefix := BestPrefix(previous, next, bound - 1);
  }

  lemma {:induction false} BestSuffix(previous: Text, next: Text, prefix: nat, bound: nat) returns (suffix: nat)
    requires prefix <= |previous| && prefix <= |next|
    ensures CutsSuffix(previous, next, prefix, suffix)
    ensures forall s: nat | CutsSuffix(previous, next, prefix, s) && s <= bound :: s <= suffix
  {
    if bound == 0 || CutsSuffix(previous, next, prefix, bound) { return bound; }
    suffix := BestSuffix(previous, next, prefix, bound - 1);
  }

  /** While a client is up and anything is unfinished, some operation can take a step. */
  lemma {:induction false} NeverStuck(config: Config, actions: seq<Action>, t: TaskId) returns (a: Action)
    requires Run(config, actions).Some?
    requires var w := Run(config, actions).value; w.link == Up && t < |w.tasks| && !w.tasks[t].pc.Finished?
    ensures Enabled(Run(config, actions).value, a) && (a.Start? || a.Resume? || a.Confirm? || a.Answer?)
  {
    hide GoodHint, Table.Valid;
    var w := Run(config, actions).value;
    var path := WaitsEnd(config, actions, t);
    var mover := path[|path| - 1];
    var hint := HintExists(w, mover);
    a := match w.tasks[mover].pc
      case Waiting => Start(mover, hint)
      case Evicting(_) => Resume(mover, hint)
      case Sending(_) => Confirm(mover)
      case _ => Answer(mover, true);
  }
}
