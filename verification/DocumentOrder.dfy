/** What every interleaving keeps whatever the server can do: the order of the operations, the shape of
  * their waits, and the versions they carry. */
module DocumentOrder {
  import opened DocumentTable
  import opened DocumentTasks
  import opened LspProtocol
  import opened TextEdits
  import opened Utf16
  import opened Wrappers

  /** How the promise chains order the operations of each URI. */
  ghost predicate Order(tasks: seq<Task>, queues: map<Uri, TaskId>)
  {
    Chained(tasks) && Queued(tasks, queues) && OneAtATime(tasks)
  }

  /** An operation waits for the latest one before it on its URI, or all of those have ended. */
  ghost predicate Chained(tasks: seq<Task>)
  {
    && (forall t | 0 <= t < |tasks| && tasks[t].after.Some? :: tasks[t].after.value < t && tasks[tasks[t].after.value].uri == tasks[t].uri)
    && (forall s, t | 0 <= s < t < |tasks| && tasks[s].uri == tasks[t].uri ::
          if tasks[t].after.Some? then s <= tasks[t].after.value else tasks[s].pc.Finished?)
  }

  /** A URI with unfinished work has a queue, and a queue names the last operation of its URI. */
  ghost predicate Queued(tasks: seq<Task>, queues: map<Uri, TaskId>)
  {
    && (forall u | u in queues :: queues[u] < |tasks| && tasks[queues[u]].uri == u)
    && (forall t | 0 <= t < |tasks| && !tasks[t].pc.Finished? :: tasks[t].uri in queues)
    && (forall t | 0 <= t < |tasks| && tasks[t].uri in queues :: t <= queues[tasks[t].uri])
  }

  /** Of two operations on one URI the later one starts only after the earlier one has ended. */
  ghost predicate OneAtATime(tasks: seq<Task>)
  {
    forall s, t | 0 <= s < t < |tasks| && tasks[s].uri == tasks[t].uri :: tasks[t].pc.Waiting? || tasks[s].pc.Finished?
  }

  // ---------------------------------------------------------------- whose turn it is

  /** Every earlier operation on the same URI has ended and this one has not. */
  ghost predicate Turn(tasks: seq<Task>, id: TaskId)
  {
    && id < |tasks| && !tasks[id].pc.Finished?
    && forall s | 0 <= s < id && tasks[s].uri == tasks[id].uri :: tasks[s].pc.Finished?
  }

  lemma {:induction false} StartHasTurn(w: World, id: TaskId)
    requires Order(w.tasks, w.queues) && id < |w.tasks| && w.tasks[id].pc.Waiting?
    requires w.tasks[id].after.Some? ==> w.tasks[id].after.value < |w.tasks| && w.tasks[w.tasks[id].after.value].pc.Finished?
    ensures Turn(w.tasks, id)
  {
    hide Queued;
    forall s | 0 <= s < id && w.tasks[s].uri == w.tasks[id].uri ensures w.tasks[s].pc.Finished? {
      if w.tasks[id].after.Some? {
        var a := w.tasks[id].after.value;
        assert s <= a && w.tasks[a].uri == w.tasks[s].uri;
      }
    }
  }

  lemma {:induction false} RunningHasTurn(w: World, id: TaskId)
    requires Order(w.tasks, w.queues) && id < |w.tasks| && !w.tasks[id].pc.Waiting? && !w.tasks[id].pc.Finished?
    ensures Turn(w.tasks, id)
  {
  }

  /** Whoever has the turn, the other operations on its URI have ended or not begun. */
  lemma {:induction false} TurnIsExclusive(w: World, id: TaskId, t: TaskId)
    requires Order(w.tasks, w.queues) && Turn(w.tasks, id) && t < |w.tasks| && t != id && w.tasks[t].uri == w.tasks[id].uri
    ensures w.tasks[t].pc.Waiting? || w.tasks[t].pc.Finished?
  {
  }

  // ---------------------------------------------------------------- steps keep the order

  lemma {:induction false} OrderKept(tasks: seq<Task>, queues: map<Uri, TaskId>, id: TaskId, pc: Pc)
    requires id < |tasks| && Order(tasks, queues) && Turn(tasks, id) && !pc.Waiting?
    ensures Order(tasks[id := tasks[id].(pc := pc)], queues)
  {
    hide Chained, OneAtATime;
    ChainedKept(tasks, id, pc);
    OneAtATimeKept(tasks, id, pc);
  }

  lemma {:induction false} OneAtATimeKept(tasks: seq<Task>, id: TaskId, pc: Pc)
    requires OneAtATime(tasks) && Turn(tasks, id)
    ensures OneAtATime(tasks[id := tasks[id].(pc := pc)])
  {
  }

  lemma {:induction false} ChainedKept(tasks: seq<Task>, id: TaskId, pc: Pc)
    requires Chained(tasks) && Turn(tasks, id)
    ensures Chained(tasks[id := tasks[id].(pc := pc)])
  {
    var tasks' := tasks[id := tasks[id].(pc := pc)];
    assert forall t | 0 <= t < |tasks| :: (tasks'[t].uri == tasks[t].uri && tasks'[t].after == tasks[t].after
      && (tasks[t].pc.Finished? ==> tasks'[t].pc.Finished?));
  }

  lemma {:induction false} QueueKeepsOrder(tasks: seq<Task>, queues: map<Uri, TaskId>, uri: Uri, op: Op)
    requires Order(tasks, queues)
    ensures Order(tasks + [Task(uri, op, Get(queues, uri), Waiting)], queues[uri := |tasks|])
  {
    var tasks' := tasks + [Task(uri, op, Get(queues, uri), Waiting)];
    assert Chained(tasks') by { hide OneAtATime; }
    assert Queued(tasks', queues[uri := |tasks|]) by { hide Chained, OneAtATime; }
    assert OneAtATime(tasks') by { hide Chained, Queued; }
  }

  lemma {:induction false} TurnSurvivesQueue(w: World, id: TaskId, uri: Uri, op: Op)
    requires Turn(w.tasks, id)
    ensures Turn(Queue(w, uri, op).tasks, id)
  {
  }

  /** The last operation of a URI has ended, and so have all before it. */
  lemma {:induction false} SettleKeepsOrder(tasks: seq<Task>, queues: map<Uri, TaskId>, id: TaskId)
    requires Order(tasks, queues) && id < |tasks| && tasks[id].pc.Finished? && tasks[id].uri in queues && queues[tasks[id].uri] == id
    ensures Order(tasks, queues - {tasks[id].uri})
  {
    hide Chained;
    forall t | 0 <= t < |tasks| && !tasks[t].pc.Finished? ensures tasks[t].uri != tasks[id].uri {
      if tasks[t].uri == tasks[id].uri { LastEndsLast(tasks, queues, id, t); }
    }
  }

  lemma {:induction false} LastEndsLast(tasks: seq<Task>, queues: map<Uri, TaskId>, id: TaskId, t: TaskId)
    requires Order(tasks, queues) && id < |tasks| && tasks[id].pc.Finished? && tasks[id].uri in queues && queues[tasks[id].uri] == id
    requires t < |tasks| && tasks[t].uri == tasks[id].uri
    ensures tasks[t].pc.Finished?
  {
    hide Chained;
  }

  // ---------------------------------------------------------------- the shape of an operation

  function NoteVersion(note: Notification): nat
  {
    match note
    case DidOpen(_, _, version, _) => version
    case DidChange(_, version, _) => version
    case DidClose(_) => 0
  }

  /** An eviction waits for a close that had no queue in front of it, and the notification an operation
    * has sent about a document in the table carries the version after the recorded one. */
  ghost predicate Shape(w: World, t: TaskId)
    requires t < |w.tasks|
  {
    var task := w.tasks[t];
    match task.pc
    case Evicting(child) =>
      && IsSync(task.op) && task.uri !in w.table.states
      && t < child < |w.tasks| && w.tasks[child].op.Close? && w.tasks[child].after.None?
    case Sending(note) =>
      && note.uri == task.uri
      && if note.DidClose? then !IsSync(task.op)
         else IsSync(task.op) && (task.uri in w.table.states ==> NoteVersion(note) == w.table.states[task.uri].version + 1)
    case Requesting(_) => task.op.Outline?
    case _ => true
  }

  /** The invariant that needs nothing of the server. A crash empties the queues. */
  ghost predicate Ordered(w: World)
  {
    && Chained(w.tasks) && OneAtATime(w.tasks)
    && (w.link != Crashed ==> Queued(w.tasks, w.queues))
    && forall t | 0 <= t < |w.tasks| :: Shape(w, t)
  }

  lemma {:induction false} OrderedIsOrder(w: World)
    requires Ordered(w) && w.link != Crashed
    ensures Order(w.tasks, w.queues)
  {
  }

  lemma {:induction false} OrderedShape(w: World, t: TaskId)
    requires Ordered(w) && t < |w.tasks|
    ensures Shape(w, t)
  {
  }

  // ---------------------------------------------------------------- one operation moves on

  /** `w1` is `w` with only the entries of the URI of `id` changed; its operations have not moved. */
  ghost predicate Touched(w: World, w1: World, id: TaskId)
    requires id < |w.tasks|
  {
    && w1 == w.(table := w1.table, server := w1.server, inFlight := w1.inFlight, breach := w1.breach)
    && w1.table.states - {w.tasks[id].uri} == w.table.states - {w.tasks[id].uri}
  }

  /** `w'` is `w` after operation `id` moved on, touching only its own document's entry. */
  ghost predicate Moves(w: World, w': World, id: TaskId)
    requires id < |w.tasks|
  {
    && w'.queues == w.queues && w'.link == w.link && w'.config == w.config
    && |w'.tasks| == |w.tasks| && w'.tasks == w.tasks[id := w.tasks[id].(pc := w'.tasks[id].pc)]
    && !w'.tasks[id].pc.Waiting? && Shape(w', id)
    && w'.table.states - {w.tasks[id].uri} == w.table.states - {w.tasks[id].uri}
  }

  lemma {:induction false} MovesKeep(w: World, w': World, id: TaskId)
    requires id < |w.tasks| && Ordered(w) && w.link != Crashed && Turn(w.tasks, id) && Moves(w, w', id)
    ensures Ordered(w') && w'.config == w.config
  {
    hide Chained, OneAtATime, Queued, Turn, Shape;
    OrderedIsOrder(w);
    OrderKept(w.tasks, w.queues, id, w'.tasks[id].pc);
    forall t | 0 <= t < |w'.tasks| ensures Shape(w', t) {
      if t != id {
        OrderedShape(w, t);
        OtherShapeKept(w, w', id, t);
      }
    }
  }

  lemma {:induction false} OtherShapeKept(w: World, w': World, id: TaskId, t: TaskId)
    requires id < |w.tasks| && Order(w.tasks, w.queues) && Turn(w.tasks, id) && Moves(w, w', id)
    requires t < |w.tasks| && t != id && Shape(w, t)
    ensures Shape(w', t)
  {
    hide Order;
    var u, v := w.tasks[id].uri, w.tasks[t].uri;
    if u == v {
      TurnIsExclusive(w, id, t);
    } else {
      OthersUnchanged(w.table.states, w'.table.states, u, v);
      assert Get(w.table.states, v) == Get(w'.table.states, v);
    }
  }

  lemma {:induction false} CommitTouches(t: Table, uri: Uri, text: Text, languageId: LanguageId, version: nat, open: bool, persistent: bool)
    requires t.Valid()
    ensures t.Commit(uri, text, languageId, version, open, persistent).states - {uri} == t.states - {uri}
  {
  }

  lemma {:induction false} StampTouches(t: Table, uri: Uri, state: DocumentState)
    requires t.Valid() && (state.cached.Some? ==> state.cached.value.version == state.version)
    ensures t.Stamp(uri, state).states - {uri} == t.states - {uri}
  {
  }

  lemma {:induction false} OthersTouch(t: Table, uri: Uri, version: nat, value: Symbols)
    requires t.Valid()
    ensures t.Touch(uri).states - {uri} == t.states - {uri} == t.MarkPersistent(uri).states - {uri}
    ensures t.MarkClosed(uri).states - {uri} == t.states - {uri} == t.Remove(uri).states - {uri}
    ensures t.CacheSymbols(uri, version, value).states - {uri} == t.states - {uri}
  {
    hide Table.Stamp;
    if uri in t.states {
      var s := t.states[uri];
      StampTouches(t, uri, s);
      StampTouches(t, uri, s.(persistent := true));
      StampTouches(t, uri, s.(open := false, persistent := false));
      if s.version == version { StampTouches(t, uri, s.(cached := Some(CacheEntry(version, value)))); }
    }
  }

  lemma {:induction false} AfterSyncMoves(w: World, w1: World, id: TaskId)
    requires id < |w.tasks| && Touched(w, w1, id)
    ensures Moves(w, AfterSync(w1, id), id)
  {
  }

  lemma {:induction false} CommittedMoves(w: World, w1: World, id: TaskId, version: nat, open: bool)
    requires id < |w.tasks| && Touched(w, w1, id)
    ensures Moves(w, Committed(w1, id, version, open), id)
  {
    hide Table.Valid, Table.Commit, AfterSync, Moves;
    var task := w.tasks[id];
    var table := w1.table.Commit(task.uri, TextOf(task.op), w.config.language(task.uri), version, open, task.op.Sync? && task.op.persistent);
    CommitTouches(w1.table, task.uri, TextOf(task.op), w.config.language(task.uri), version, open, task.op.Sync? && task.op.persistent);
    AfterSyncMoves(w, w1.(table := table), id);
  }

  lemma {:induction false} SendMoves(w: World, w1: World, id: TaskId, note: Notification)
    requires id < |w.tasks| && Touched(w, w1, id) && w1.table.states == w.table.states && note.uri == w.tasks[id].uri
    requires if note.DidClose? then !IsSync(w.tasks[id].op)
             else IsSync(w.tasks[id].op) && (note.uri in w.table.states ==> NoteVersion(note) == w.table.states[note.uri].version + 1)
    ensures Moves(w, Send(w1, id, note), id)
  {
    hide Apply;
  }

  lemma {:induction false} OpenMoves(w: World, id: TaskId, version: nat)
    requires id < |w.tasks| && IsSync(w.tasks[id].op)
    requires w.tasks[id].uri in w.table.states ==> version == w.table.states[w.tasks[id].uri].version + 1
    ensures Moves(w, OpenStep(w, id, version), id)
  {
    hide Send, Committed, Moves, Table.Valid;
    var task := w.tasks[id];
    if w.config.policy.openClose {
      SendMoves(w, w.(table := w.table.SetPending(task.uri, version)), id, DidOpen(task.uri, w.config.language(task.uri), version, TextOf(task.op)));
    } else {
      CommittedMoves(w, w, id, version, false);
    }
  }

  lemma {:induction false} UseMoves(w: World, id: TaskId)
    requires id < |w.tasks|
    ensures Moves(w, UseStep(w, id), id)
  {
    hide AfterSync, Moves, Table.Valid, Table.Touch, Table.MarkPersistent;
    var uri := w.tasks[id].uri;
    OthersTouch(w.table, uri, 0, Symbols([]));
    AfterSyncMoves(w, w.(table := w.table.MarkPersistent(uri)), id);
    AfterSyncMoves(w, w.(table := w.table.Touch(uri)), id);
  }

  lemma {:induction false} HintIsValid(w: World, id: TaskId, hint: Hint)
    requires id < |w.tasks| && GoodHint(w, id, hint) && w.tasks[id].uri in w.table.states && IsSync(w.tasks[id].op)
    ensures var previous, next := w.table.states[w.tasks[id].uri].text, TextOf(w.tasks[id].op);
            && ValidEdit(previous, next, hint.prefix, hint.suffix)
            && hint.prefix + hint.suffix <= |previous| && hint.prefix + hint.suffix <= |next|
  {
  }

  lemma {:induction false} ChangeMoves(w: World, id: TaskId, hint: Hint)
    requires id < |w.tasks| && GoodHint(w, id, hint) && IsSync(w.tasks[id].op) && w.tasks[id].uri in w.table.states
    ensures Moves(w, ChangeStep(w, id, hint), id)
  {
    hide GoodHint, Send, Committed, ContentFor, Moves, Table.Valid;
    HintIsValid(w, id, hint);
    var uri, kind := w.tasks[id].uri, w.config.policy.change;
    var previous := w.table.states[uri];
    var content := ContentFor(kind, previous.text, TextOf(w.tasks[id].op), hint.prefix, hint.suffix);
    SendMoves(w, w.(table := w.table.SetPending(uri, previous.version + 1)), id, DidChange(uri, previous.version + 1, content));
    CommittedMoves(w, w, id, previous.version + 1, previous.open);
  }

  lemma {:induction false} ClosedMoves(w: World, w1: World, id: TaskId)
    requires id < |w.tasks| && Touched(w, w1, id)
    ensures Moves(w, Closed(w1, id), id)
  {
    hide Table.Valid, Table.MarkClosed, Table.Remove;
    OthersTouch(w1.table, w.tasks[id].uri, 0, Symbols([]));
  }

  // ---------------------------------------------------------------- every step

  ghost predicate Keeps(w: World, w': World) { Ordered(w') && w'.config == w.config }

  /** A step of operation `id`: it moves on, or queues a close of a document without work and waits for it. */
  ghost predicate Progress(w: World, w': World, id: TaskId)
    requires id < |w.tasks|
  {
    || Moves(w, w', id)
    || (IsSync(w.tasks[id].op) && exists victim: Uri :: victim !in w.queues && w' == At(Queue(w, victim, Close), id, Evicting(|w.tasks|)))
  }

  lemma {:induction false} QueueKeepsShape(w: World, uri: Uri, op: Op)
    requires Ordered(w) && w.link != Crashed
    ensures Keeps(w, Queue(w, uri, op))
  {
    hide Chained, OneAtATime, Queued;
    OrderedIsOrder(w);
    QueueKeepsOrder(w.tasks, w.queues, uri, op);
    var w' := Queue(w, uri, op);
    forall t | 0 <= t < |w'.tasks| ensures Shape(w', t) { if t < |w.tasks| { OrderedShape(w, t); } }
  }

  lemma {:induction false} MakeRoomOrders(w: World, id: TaskId, hint: Hint)
    requires id < |w.tasks| && Ordered(w) && w.link != Crashed && Turn(w.tasks, id) && IsSync(w.tasks[id].op)
    requires w.tasks[id].uri !in w.table.states && GoodHint(w, id, hint)
    ensures Keeps(w, MakeRoomStep(w, id, hint)) && Progress(w, MakeRoomStep(w, id, hint), id)
  {
    hide Ordered, Turn, OpenStep, Table.Valid, ValidEdit, KeepsMost;
    if |w.table.states| >= w.config.maxDocuments && hint.victim.Some? {
      var w1 := Queue(w, hint.victim.value, Close);
      QueueKeepsShape(w, hint.victim.value, Close);
      TurnSurvivesQueue(w, id, hint.victim.value, Close);
      assert w1.tasks[|w.tasks|].after.None?;
      MovesKeep(w1, At(w1, id, Evicting(|w.tasks|)), id);
    } else {
      OpenMoves(w, id, 1);
      MovesKeep(w, OpenStep(w, id, 1), id);
    }
  }

  lemma {:induction false} SyncOrders(w: World, id: TaskId, hint: Hint)
    requires id < |w.tasks| && Ordered(w) && w.link != Crashed && Turn(w.tasks, id) && IsSync(w.tasks[id].op) && GoodHint(w, id, hint)
    ensures Keeps(w, SyncStep(w, id, hint)) && Progress(w, SyncStep(w, id, hint), id)
  {
    hide Ordered, Turn, GoodHint, MakeRoomStep, OpenStep, UseStep, ChangeStep, Moves;
    var u := w.tasks[id].uri;
    if u !in w.table.states {
      MakeRoomOrders(w, id, hint);
    } else {
      OpenMoves(w, id, w.table.states[u].version + 1);
      UseMoves(w, id);
      ChangeMoves(w, id, hint);
      MovesKeep(w, SyncStep(w, id, hint), id);
    }
  }

  lemma {:induction false} StartOrders(w: World, id: TaskId, hint: Hint)
    requires Ordered(w) && Enabled(w, Start(id, hint))
    ensures Keeps(w, StartStep(w, id, hint)) && Progress(w, StartStep(w, id, hint), id)
  {
    hide Ordered, Order, GoodHint, SyncStep, Send, Closed, Table.Valid, Table.Touch, CacheHit;
    OrderedIsOrder(w);
    StartHasTurn(w, id);
    var u := w.tasks[id].uri;
    OthersTouch(w.table, u, 0, Symbols([]));
    if !CacheHit(w, id) && IsSync(w.tasks[id].op) {
      SyncOrders(w, id, hint);
    } else {
      if !IsSync(w.tasks[id].op) { SendMoves(w, w, id, DidClose(u)); }
      ClosedMoves(w, w, id);
      MovesKeep(w, StartStep(w, id, hint), id);
    }
  }

  lemma {:induction false} ConfirmOrders(w: World, id: TaskId)
    requires Ordered(w) && Enabled(w, Confirm(id))
    ensures Keeps(w, ConfirmStep(w, id)) && Progress(w, ConfirmStep(w, id), id)
  {
    hide Ordered, Order, Turn, Closed, Committed, Table.Valid;
    OrderedIsOrder(w);
    RunningHasTurn(w, id);
    var u, note := w.tasks[id].uri, w.tasks[id].pc.note;
    var settled := w.(inFlight := w.inFlight - {u});
    ClosedMoves(w, settled, id);
    if !note.DidClose? {
      CommittedMoves(w, settled, id, NoteVersion(note), if note.DidOpen? then true else u in w.table.states && w.table.states[u].open);
    }
    MovesKeep(w, ConfirmStep(w, id), id);
  }

  lemma {:induction false} AnswerOrders(w: World, id: TaskId, answered: bool)
    requires Ordered(w) && Enabled(w, Answer(id, answered))
    ensures Keeps(w, AnswerStep(w, id, answered)) && Progress(w, AnswerStep(w, id, answered), id)
  {
    hide Ordered, Order, Turn, Table.Valid, Table.CacheSymbols;
    OrderedIsOrder(w);
    RunningHasTurn(w, id);
    var u := w.tasks[id].uri;
    if answered && u in w.server {
      OthersTouch(w.table, u, w.tasks[id].pc.version, w.config.outline(w.server[u].text, w.server[u].languageId));
    }
    MovesKeep(w, AnswerStep(w, id, answered), id);
  }

  lemma {:induction false} ResumeOrders(w: World, id: TaskId, hint: Hint)
    requires Ordered(w) && Enabled(w, Resume(id, hint))
    ensures Keeps(w, Next(w, Resume(id, hint))) && Progress(w, Next(w, Resume(id, hint)), id)
  {
    hide Ordered, Order, Turn, MakeRoomStep, OpenStep, GoodHint;
    OrderedIsOrder(w);
    OrderedShape(w, id);
    RunningHasTurn(w, id);
    MakeRoomOrders(w, id, hint);
    OpenMoves(w, id, 1);
    MovesKeep(w, OpenStep(w, id, 1), id);
  }

  lemma {:induction false} LinkOrders(w: World, a: Action)
    requires Ordered(w) && Enabled(w, a) && (a.Crash? || a.Restart?)
    ensures Keeps(w, Next(w, a))
  {
    hide Chained, OneAtATime, Shape;
    var w' := Next(w, a);
    forall t | 0 <= t < |w.tasks| ensures Shape(w', t) {
      OrderedShape(w, t);
      EmptyShape(w, w', t);
    }
  }

  lemma {:induction false} StopOrders(w: World)
    requires Ordered(w) && Enabled(w, Stop)
    ensures Keeps(w, Next(w, Stop))
  {
    hide Table.Valid, Chained, Queued, OneAtATime;
    EndedInOrder(w.tasks);
  }

  lemma {:induction false} EndedInOrder(tasks: seq<Task>)
    requires Chained(tasks)
    ensures Order(Ended(tasks), map[])
  {
  }

  lemma {:induction false} EmptyShape(w: World, w': World, t: TaskId)
    requires t < |w.tasks| && w'.tasks == w.tasks && Shape(w, t) && (w'.table.states == map[] || w'.table.states == w.table.states)
    ensures Shape(w', t)
  {
  }

  lemma {:induction false} SettleOrders(w: World, id: TaskId)
    requires Ordered(w) && Enabled(w, Settle(id))
    ensures Keeps(w, Next(w, Settle(id)))
  {
    hide Chained, OneAtATime, Queued, Shape;
    OrderedIsOrder(w);
    SettleKeepsOrder(w.tasks, w.queues, id);
    var w' := Next(w, Settle(id));
    forall t | 0 <= t < |w.tasks| ensures Shape(w', t) {
      OrderedShape(w, t);
      EmptyShape(w, w', t);
    }
  }

  lemma {:induction false} NextOrders(w: World, a: Action)
    requires Ordered(w) && Enabled(w, a)
    ensures Keeps(w, Next(w, a))
  {
    hide Ordered, StartStep, ConfirmStep, AnswerStep, MakeRoomStep, OpenStep, GoodHint, Table.Valid;
    match a
    case Enqueue(uri, op) => QueueKeepsShape(w, uri, op);
    case Start(id, hint) => StartOrders(w, id, hint);
    case Resume(id, hint) => ResumeOrders(w, id, hint);
    case Confirm(id) => ConfirmOrders(w, id);
    case Answer(id, answered) => AnswerOrders(w, id, answered);
    case Settle(id) => SettleOrders(w, id);
    case Stop => StopOrders(w);
    case _ => LinkOrders(w, a);
  }

  /** The order holds after every run, whatever the server can do. */
  lemma {:induction false} RunOrders(config: Config, actions: seq<Action>)
    ensures var w := Run(config, actions); w.Some? ==> Ordered(w.value) && w.value.config == config
  {
    hide Ordered, Enabled, Next;
    if actions == [] {
      FreshIsOrdered(config);
    } else {
      var w := Run(config, actions[..|actions| - 1]);
      RunOrders(config, actions[..|actions| - 1]);
      if w.Some? && Enabled(w.value, actions[|actions| - 1]) {
        NextOrders(w.value, actions[|actions| - 1]);
      }
    }
  }

  lemma {:induction false} FreshIsOrdered(config: Config)
    ensures Ordered(Fresh(config)) && Fresh(config).config == config
  {
  }
}
