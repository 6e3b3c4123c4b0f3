/** When the answers of `documentSymbols` can be trusted: src/lsp/client.ts, lines 385-407. */
module DocumentAnswers {
  import opened DocumentGuarantees
  import opened DocumentOrder
  import opened DocumentRuns
  import opened DocumentTable
  import opened DocumentTasks
  import opened LspProtocol
  import opened TextEdits
  import opened Utf16
  import opened Wrappers

  /** Every answer in every run is what the server computes for the text asked about. */
  ghost predicate EveryAnswerTrue(config: Config)
  {
    forall actions, t | Run(config, actions).Some? && 0 <= t < |Run(config, actions).value.tasks| ::
      AnswerTrue(config, Run(config, actions).value.tasks[t])
  }

  /** No two texts of a document have different symbols. */
  ghost predicate Indistinct(config: Config)
  {
    forall u: Uri, a: Text, b: Text :: config.outline(a, config.language(u)) == config.outline(b, config.language(u))
  }

  // ---------------------------------------------------------------- answers are computed from some text

  ghost predicate Spoken(c: Config, u: Uri, value: Symbols)
  {
    exists text: Text :: value == c.outline(text, c.language(u))
  }

  ghost predicate PlainTable(c: Config, states: map<Uri, DocumentState>)
  {
    c.policy.openClose ==> forall u | u in states && states[u].cached.Some? :: Spoken(c, u, states[u].cached.value.value)
  }

  ghost predicate PlainServer(c: Config, server: Mirror)
  {
    forall u | u in server :: server[u].languageId == c.language(u)
  }

  ghost predicate PlainTask(c: Config, task: Task)
  {
    task.pc.Finished? && task.pc.answer.Some? ==> task.op.Outline? && (c.policy.openClose ==> Spoken(c, task.uri, task.pc.answer.value))
  }

  ghost predicate PlainTasks(c: Config, tasks: seq<Task>)
  {
    forall t | 0 <= t < |tasks| :: PlainTask(c, tasks[t])
  }

  /** Whatever the server is told, what it says of a document is said of some text in its language. */
  ghost predicate Plain(w: World)
  {
    PlainTable(w.config, w.table.states) && PlainServer(w.config, w.server) && PlainTasks(w.config, w.tasks)
  }

  ghost predicate StaysPlain(w: World, w': World) { Plain(w') && w'.config == w.config }

  lemma PlainMove(c: Config, tasks: seq<Task>, id: TaskId, pc: Pc)
    requires PlainTasks(c, tasks) && id < |tasks| && PlainTask(c, tasks[id].(pc := pc))
    ensures PlainTasks(c, tasks[id := tasks[id].(pc := pc)])
  {
  }

  lemma PlainStamp(c: Config, t: Table, uri: Uri, state: DocumentState)
    requires t.Valid() && PlainTable(c, t.states) && (state.cached.Some? ==> state.cached.value.version == state.version)
    requires c.policy.openClose && state.cached.Some? ==> Spoken(c, uri, state.cached.value.value)
    ensures PlainTable(c, t.Stamp(uri, state).states)
  {
    hide Table.Valid, Spoken;
  }

  lemma PlainUses(c: Config, t: Table, uri: Uri)
    requires t.Valid() && PlainTable(c, t.states)
    ensures PlainTable(c, t.Touch(uri).states) && PlainTable(c, t.MarkPersistent(uri).states) && PlainTable(c, t.MarkClosed(uri).states)
    ensures PlainTable(c, t.Remove(uri).states)
  {
    hide Spoken, Table.Stamp;
    if uri in t.states {
      var s := t.states[uri];
      PlainStamp(c, t, uri, s);
      PlainStamp(c, t, uri, s.(persistent := true));
      PlainStamp(c, t, uri, s.(open := false, persistent := false));
    }
  }

  lemma PlainCache(c: Config, t: Table, uri: Uri, version: nat, value: Symbols)
    requires t.Valid() && PlainTable(c, t.states) && (c.policy.openClose ==> Spoken(c, uri, value))
    ensures PlainTable(c, t.CacheSymbols(uri, version, value).states)
  {
    hide Spoken, Table.Stamp;
    if uri in t.states && t.states[uri].version == version {
      PlainStamp(c, t, uri, t.states[uri].(cached := Some(CacheEntry(version, value))));
    }
  }

  lemma PlainCommit(c: Config, t: Table, uri: Uri, text: Text, languageId: LanguageId, version: nat, open: bool, persistent: bool)
    requires t.Valid() && PlainTable(c, t.states)
    ensures PlainTable(c, t.Commit(uri, text, languageId, version, open, persistent).states)
  {
    hide Spoken;
  }

  lemma PlainApply(c: Config, m: Mirror, note: Notification)
    requires PlainServer(c, m) && Apply(c.policy, m, note).Some? && (note.DidOpen? ==> note.languageId == c.language(note.uri))
    ensures PlainServer(c, Apply(c.policy, m, note).value)
  {
    hide Edited;
  }

  lemma PlainAt(w: World, id: TaskId, pc: Pc)
    requires id < |w.tasks| && Plain(w) && PlainTask(w.config, w.tasks[id].(pc := pc))
    ensures StaysPlain(w, At(w, id, pc))
  {
    hide PlainTask, PlainTable, PlainServer;
    PlainMove(w.config, w.tasks, id, pc);
  }

  lemma PlainAfterSync(w: World, id: TaskId)
    requires id < |w.tasks| && Plain(w)
    ensures StaysPlain(w, AfterSync(w, id))
  {
    hide Plain;
    PlainAt(w, id, Finished(true, None));
    if w.tasks[id].uri in w.table.states { PlainAt(w, id, Requesting(w.table.states[w.tasks[id].uri].version)); }
  }

  lemma PlainCommitted(w: World, id: TaskId, version: nat, open: bool)
    requires id < |w.tasks| && Plain(w)
    ensures StaysPlain(w, Committed(w, id, version, open))
  {
    hide PlainTable, PlainServer, PlainTasks, AfterSync, Table.Valid, Table.Commit;
    var task := w.tasks[id];
    PlainCommit(w.config, w.table, task.uri, TextOf(task.op), w.config.language(task.uri), version, open, task.op.Sync? && task.op.persistent);
    PlainAfterSync(w.(table := w.table.Commit(task.uri, TextOf(task.op), w.config.language(task.uri), version, open, task.op.Sync? && task.op.persistent)), id);
  }

  lemma PlainSend(w: World, id: TaskId, note: Notification)
    requires id < |w.tasks| && Plain(w) && (note.DidOpen? ==> note.languageId == w.config.language(note.uri))
    ensures StaysPlain(w, Send(w, id, note))
  {
    hide PlainTable, PlainServer, PlainTasks, Apply;
    PlainMove(w.config, w.tasks, id, Sending(note));
    if Apply(w.config.policy, w.server, note).Some? { PlainApply(w.config, w.server, note); }
  }

  lemma PlainOpen(w: World, id: TaskId, version: nat)
    requires id < |w.tasks| && Plain(w)
    ensures StaysPlain(w, OpenStep(w, id, version))
  {
    hide PlainTable, PlainServer, PlainTasks, Send, Committed;
    var task := w.tasks[id];
    PlainSend(w.(table := w.table.SetPending(task.uri, version)), id, DidOpen(task.uri, w.config.language(task.uri), version, TextOf(task.op)));
    PlainCommitted(w, id, version, false);
  }

  lemma PlainUse(w: World, id: TaskId)
    requires id < |w.tasks| && Plain(w)
    ensures StaysPlain(w, UseStep(w, id))
  {
    hide PlainTable, PlainServer, PlainTasks, AfterSync, Table.Valid, Table.Touch, Table.MarkPersistent;
    var uri := w.tasks[id].uri;
    PlainUses(w.config, w.table, uri);
    PlainAfterSync(w.(table := w.table.MarkPersistent(uri)), id);
    PlainAfterSync(w.(table := w.table.Touch(uri)), id);
  }

  lemma PlainChange(w: World, id: TaskId, hint: Hint)
    requires id < |w.tasks| && Plain(w) && GoodHint(w, id, hint) && IsSync(w.tasks[id].op) && w.tasks[id].uri in w.table.states
    ensures StaysPlain(w, ChangeStep(w, id, hint))
  {
    hide PlainTable, PlainServer, PlainTasks, Send, Committed, ContentFor, GoodHint;
    HintIsValid(w, id, hint);
    var uri, previous := w.tasks[id].uri, w.table.states[w.tasks[id].uri];
    var content := ContentFor(w.config.policy.change, previous.text, TextOf(w.tasks[id].op), hint.prefix, hint.suffix);
    PlainSend(w.(table := w.table.SetPending(uri, previous.version + 1)), id, DidChange(uri, previous.version + 1, content));
    PlainCommitted(w, id, previous.version + 1, previous.open);
  }

  lemma PlainQueue(w: World, uri: Uri, op: Op)
    requires Plain(w)
    ensures StaysPlain(w, Queue(w, uri, op))
  {
    hide PlainTable, PlainServer;
  }

  lemma PlainMakeRoom(w: World, id: TaskId, hint: Hint)
    requires id < |w.tasks| && Plain(w)
    ensures StaysPlain(w, MakeRoomStep(w, id, hint))
  {
    hide Plain, OpenStep;
    PlainOpen(w, id, 1);
    if hint.victim.Some? {
      var w1 := Queue(w, hint.victim.value, Close);
      PlainQueue(w, hint.victim.value, Close);
      PlainAt(w1, id, Evicting(|w.tasks|));
    }
  }

  lemma PlainClosed(w: World, id: TaskId)
    requires id < |w.tasks| && Plain(w)
    ensures StaysPlain(w, Closed(w, id))
  {
    hide PlainTable, PlainServer, PlainTasks, Table.Valid, Table.MarkClosed, Table.Remove;
    PlainUses(w.config, w.table, w.tasks[id].uri);
    PlainMove(w.config, w.tasks, id, Finished(true, None));
  }

  lemma PlainSync(w: World, id: TaskId, hint: Hint)
    requires id < |w.tasks| && Plain(w) && GoodHint(w, id, hint) && IsSync(w.tasks[id].op)
    ensures StaysPlain(w, SyncStep(w, id, hint))
  {
    hide Plain, GoodHint, MakeRoomStep, OpenStep, UseStep, ChangeStep;
    if w.tasks[id].uri in w.table.states {
      PlainOpen(w, id, w.table.states[w.tasks[id].uri].version + 1);
      PlainUse(w, id);
      PlainChange(w, id, hint);
    } else {
      PlainMakeRoom(w, id, hint);
    }
  }

  lemma PlainHit(w: World, id: TaskId)
    requires id < |w.tasks| && Plain(w) && CacheHit(w, id)
    ensures var uri := w.tasks[id].uri;
            StaysPlain(w, At(w.(table := w.table.Touch(uri)), id, Finished(true, Some(w.table.states[uri].cached.value.value))))
  {
    hide PlainServer, PlainTasks, Spoken, Table.Valid, Table.Touch;
    var uri := w.tasks[id].uri;
    PlainUses(w.config, w.table, uri);
    PlainMove(w.config, w.tasks, id, Finished(true, Some(w.table.states[uri].cached.value.value)));
  }

  lemma PlainStart(w: World, id: TaskId, hint: Hint)
    requires id < |w.tasks| && Plain(w) && GoodHint(w, id, hint)
    ensures StaysPlain(w, StartStep(w, id, hint))
  {
    hide Plain, GoodHint, SyncStep, Send, Closed, CacheHit, At;
    if CacheHit(w, id) {
      PlainHit(w, id);
    } else if IsSync(w.tasks[id].op) {
      PlainSync(w, id, hint);
    } else {
      PlainAt(w, id, Finished(true, None));
      PlainSend(w, id, DidClose(w.tasks[id].uri));
      PlainClosed(w, id);
    }
  }

  lemma PlainConfirm(w: World, id: TaskId)
    requires Plain(w) && Enabled(w, Confirm(id))
    ensures StaysPlain(w, ConfirmStep(w, id))
  {
    hide PlainTable, PlainServer, PlainTasks, Closed, Committed, Table.Valid;
    var u, note := w.tasks[id].uri, w.tasks[id].pc.note;
    var settled := w.(inFlight := w.inFlight - {u});
    PlainClosed(settled, id);
    PlainCommitted(settled, id, NoteVersion(note), if note.DidOpen? then true else u in w.table.states && w.table.states[u].open);
  }

  lemma PlainAnswer(w: World, id: TaskId, answered: bool)
    requires Plain(w) && Enabled(w, Answer(id, answered)) && w.tasks[id].op.Outline?
    ensures StaysPlain(w, AnswerStep(w, id, answered))
  {
    hide PlainTable, PlainTasks, Spoken, Table.Valid, Table.CacheSymbols;
    var u := w.tasks[id].uri;
    if answered && u in w.server {
      var value := w.config.outline(w.server[u].text, w.server[u].languageId);
      SpokenOf(w.config, u, w.server[u].text);
      PlainCache(w.config, w.table, u, w.tasks[id].pc.version, value);
      PlainMove(w.config, w.tasks, id, Finished(true, Some(value)));
    } else {
      PlainMove(w.config, w.tasks, id, Finished(true, None));
    }
  }

  lemma SpokenOf(c: Config, u: Uri, text: Text)
    ensures Spoken(c, u, c.outline(text, c.language(u)))
  {
  }

  lemma PlainNext(w: World, a: Action)
    requires Plain(w) && Ordered(w) && Enabled(w, a)
    ensures StaysPlain(w, Next(w, a))
  {
    hide PlainTasks, PlainTask, Ordered, StartStep, ConfirmStep, AnswerStep, MakeRoomStep, OpenStep, GoodHint, Table.Valid, Spoken;
    match a
    case Enqueue(uri, op) => PlainQueue(w, uri, op);
    case Start(id, hint) => PlainStart(w, id, hint);
    case Resume(id, hint) =>
      PlainMakeRoom(w, id, hint);
      PlainOpen(w, id, 1);
    case Confirm(id) => PlainConfirm(w, id);
    case Answer(id, answered) =>
      OrderedShape(w, id);
      PlainAnswer(w, id, answered);
    case Stop => PlainEnded(w.config, w.tasks);
    case _ =>
  }

  lemma PlainEnded(c: Config, tasks: seq<Task>)
    requires PlainTasks(c, tasks)
    ensures PlainTasks(c, Ended(tasks))
  {
  }

  lemma {:induction false} RunPlain(config: Config, actions: seq<Action>)
    ensures var w := Run(config, actions); w.Some? ==> Plain(w.value) && w.value.config == config
  {
    hide Plain, Enabled, Next, Ordered;
    if actions == [] {
      FreshIsPlain(config);
    } else {
      var w := Run(config, actions[..|actions| - 1]);
      RunPlain(config, actions[..|actions| - 1]);
      RunOrders(config, actions[..|actions| - 1]);
      if w.Some? && Enabled(w.value, actions[|actions| - 1]) { PlainNext(w.value, actions[|actions| - 1]); }
    }
  }

  lemma FreshIsPlain(config: Config)
    ensures Plain(Fresh(config)) && Fresh(config).config == config
  {
  }

  // ---------------------------------------------------------------- a stale answer

  /** A document is open with its first text, at the server as in the table, and all work is done. */
  ghost predicate OpenWith(w: World, config: Config, u: Uri, text: Text)
  {
    && w.config == config && w.link == Up && |w.tasks| == 1 && w.tasks[0].uri == u && w.tasks[0].pc.Finished? && w.queues == map[u := 0]
    && w.table.states.Keys == {u} && w.table.states[u].text == text && w.table.states[u].open && w.table.states[u].cached.None?
    && Get(w.server, u) == Some(ServerDocument(config.language(u), 1, text))
  }

  function Opening(u: Uri, text: Text): seq<Action>
  {
    [Enqueue(u, Sync(text, true)), Start(0, Hint(None, 0, 0)), Confirm(0)]
  }

  /** The document's opening is on its way, and the server has it already. */
  ghost predicate OpeningSent(w: World, config: Config, u: Uri, text: Text)
  {
    && w.config == config && w.link == Up && |w.tasks| == 1 && w.queues == map[u := 0] && w.table.states == map[]
    && w.tasks[0] == Task(u, Sync(text, true), None, Sending(DidOpen(u, config.language(u), 1, text)))
    && Get(w.server, u) == Some(ServerDocument(config.language(u), 1, text))
  }

  lemma OpeningStarts(config: Config, u: Uri, text: Text)
    requires config.policy.openClose
    ensures var w := Run(config, Opening(u, text)[..2]); w.Some? && OpeningSent(w.value, config, u, text)
  {
    var actions := Opening(u, text);
    RunStep(config, [], actions[0]);
    assert [] + [actions[0]] == actions[..1];
    RunStep(config, actions[..1], actions[1]);
    assert actions[..1] + [actions[1]] == actions[..2];
  }

  lemma OpeningEnds(w: World, config: Config, u: Uri, text: Text)
    requires OpeningSent(w, config, u, text)
    ensures OpenWith(Next(w, Confirm(0)), config, u, text)
  {
  }

  lemma OpeningOpens(config: Config, u: Uri, text: Text)
    requires config.policy.openClose
    ensures var w := Run(config, Opening(u, text)); w.Some? && OpenWith(w.value, config, u, text)
  {
    hide Run, Next, OpenWith;
    var actions := Opening(u, text);
    OpeningStarts(config, u, text);
    OpeningEnds(Run(config, actions[..2]).value, config, u, text);
    RunStep(config, actions[..2], actions[2]);
    assert actions[..2] + [actions[2]] == actions;
  }

  /** The symbols of a second text are asked for, and no change is sent. */
  lemma AskedAfter(config: Config, actions: seq<Action>, u: Uri, a: Text, b: Text) returns (all: seq<Action>)
    requires config.policy.openClose && config.policy.change == NoSync && a != b
    requires Run(config, actions).Some? && OpenWith(Run(config, actions).value, config, u, a)
    ensures var w := Run(config, all);
            && w.Some? && w.value.config == config && w.value.link == Up && |w.value.tasks| == 2
            && w.value.tasks[1].uri == u && w.value.tasks[1].op == Outline(b) && w.value.tasks[1].pc.Requesting?
            && Get(w.value.server, u) == Some(ServerDocument(config.language(u), 1, a))
  {
    var w := Run(config, actions).value;
    var w1 := Queue(w, u, Outline(b));
    RunStep(config, actions, Enqueue(u, Outline(b)));
    assert w1.tasks[1] == Task(u, Outline(b), Some(0), Waiting) && w1.tasks[0] == w.tasks[0];
    var hint := HintExists(w1, 1);
    RunStep(config, actions + [Enqueue(u, Outline(b))], Start(1, hint));
    all := actions + [Enqueue(u, Outline(b))] + [Start(1, hint)];
  }

  /** Told of no changes, the server answers for the text it was opened with. */
  lemma StaleAnswer(config: Config, u: Uri, a: Text, b: Text) returns (actions: seq<Action>)
    requires config.policy.openClose && config.policy.change == NoSync
    requires config.outline(a, config.language(u)) != config.outline(b, config.language(u))
    ensures var w := Run(config, actions);
            w.Some? && |w.value.tasks| == 2 && !AnswerTrue(config, w.value.tasks[1])
  {
    OpeningOpens(config, u, a);
    actions := AskedAfter(config, Opening(u, a), u, a, b);
    RunStep(config, actions, Answer(1, true));
    actions := actions + [Answer(1, true)];
  }

  // ---------------------------------------------------------------- exactly when answers are true

  /** A server that is told of openings always answers for the text asked about if and only if it is told
    * of changes as well, or has the same symbols for all texts of a document. */
  lemma AnswersTrueExactly(config: Config)
    requires config.policy.openClose
    ensures EveryAnswerTrue(config) <==> config.policy.change != NoSync || Indistinct(config)
  {
    hide Plain, Run;
    if config.policy.change != NoSync {
      forall actions, t | Run(config, actions).Some? && 0 <= t < |Run(config, actions).value.tasks|
        ensures AnswerTrue(config, Run(config, actions).value.tasks[t])
      {
        RunInv(config, actions);
      }
    } else if Indistinct(config) {
      forall actions, t | Run(config, actions).Some? && 0 <= t < |Run(config, actions).value.tasks|
        ensures AnswerTrue(config, Run(config, actions).value.tasks[t])
      {
        RunPlain(config, actions);
        PlainAnswers(Run(config, actions).value, t);
      }
    } else {
      var u: Uri, a: Text, b: Text :| config.outline(a, config.language(u)) != config.outline(b, config.language(u));
      var actions := StaleAnswer(config, u, a, b);
    }
  }

  lemma PlainAnswers(w: World, t: TaskId)
    requires Plain(w) && w.config.policy.openClose && Indistinct(w.config) && t < |w.tasks|
    ensures AnswerTrue(w.config, w.tasks[t])
  {
    var task := w.tasks[t];
    if task.pc.Finished? && task.pc.answer.Some? {
      var text: Text :| task.pc.answer.value == w.config.outline(text, w.config.language(task.uri));
    }
  }
}
