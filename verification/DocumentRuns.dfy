/** What every interleaving of a client's operations keeps. */
module DocumentRuns {
  import opened DocumentOrder
  import opened DocumentTable
  import opened DocumentTasks
  import opened LspProtocol
  import opened TextEdits
  import opened Wrappers

  // ---------------------------------------------------------------- the invariant

  /** A notification under way: the server is one step ahead of the table. */
  ghost predicate OneAhead(c: Config, uri: Uri, task: Task, s: Option<DocumentState>, d: Option<ServerDocument>)
  {
    && task.uri == uri && task.pc.Sending?
    && match task.pc.note
       case DidOpen(u, languageId, version, text) =>
         && IsSync(task.op) && u == uri && languageId == c.language(uri) && text == TextOf(task.op)
         && (s.Some? ==> !s.value.open && version == s.value.version + 1)
         && d == Some(ServerDocument(languageId, version, text))
       case DidChange(u, version, _) =>
         && IsSync(task.op) && u == uri
         && s.Some? && s.value.open && version == s.value.version + 1
         && d == Some(ServerDocument(c.language(uri), version, TextOf(task.op)))
       case DidClose(u) =>
         !IsSync(task.op) && u == uri && s.Some? && s.value.open && d == None
  }

  ghost predicate DocInv(w: World, u: Uri)
  {
    var s, d := Get(w.table.states, u), Get(w.server, u);
    && EntryTrue(w.config, u, s)
    && (!w.config.policy.openClose ==> d == None && u !in w.inFlight)
    && if u in w.inFlight then w.inFlight[u] < |w.tasks| && OneAhead(w.config, u, w.tasks[w.inFlight[u]], s, d)
       else EntryAgrees(s, d)
  }

  ghost predicate TaskInv(w: World, t: TaskId)
    requires t < |w.tasks|
  {
    var task := w.tasks[t];
    match task.pc
    case Waiting => true
    case Evicting(child) =>
      && IsSync(task.op) && task.uri !in w.table.states
      && t < child < |w.tasks| && w.tasks[child].op.Close? && w.tasks[child].after.None?
    case Sending(_) => task.uri in w.inFlight && w.inFlight[task.uri] == t
    case Requesting(version) =>
      && task.op.Outline? && task.uri in w.table.states
      && w.table.states[task.uri].version == version && w.table.states[task.uri].text == task.op.text
      && w.table.states[task.uri].open == w.config.policy.openClose
    case Finished(_, _) => AnswerTrue(w.config, task)
  }

  /** An answer given is the one the server would compute for the text asked about. */
  ghost predicate AnswerTrue(c: Config, task: Task)
  {
    c.policy.openClose && task.pc.Finished? && task.pc.answer.Some? ==>
      task.op.Outline? && task.pc.answer.value == c.outline(task.op.text, c.language(task.uri))
  }

  ghost predicate Live(w: World)
  {
    && Order(w.tasks, w.queues)
    && (forall u: Uri :: DocInv(w, u))
    && (forall t | 0 <= t < |w.tasks| :: TaskInv(w, t))
  }

  ghost predicate Inv(w: World)
  {
    && Coherent(w.config.policy) && !w.breach && Chained(w.tasks) && (w.link != Crashed ==> Live(w))
    && forall t | 0 <= t < |w.tasks| :: AnswerTrue(w.config, w.tasks[t])
  }

  lemma {:induction false} LiveAnswers(w: World)
    requires Live(w)
    ensures forall t | 0 <= t < |w.tasks| :: AnswerTrue(w.config, w.tasks[t])
  {
    forall t | 0 <= t < |w.tasks| ensures AnswerTrue(w.config, w.tasks[t]) { assert TaskInv(w, t); }
  }

  /** A step that keeps everything the invariant is about. */
  ghost predicate Kept(w: World, w': World)
  {
    Live(w') && w'.config == w.config && w'.breach == w.breach && w'.link == w.link
  }

  ghost predicate Carried(w: World, w': World)
  {
    Inv(w') && w'.config == w.config
  }

  lemma {:induction false} LiveOrder(w: World)
    requires Live(w)
    ensures Order(w.tasks, w.queues)
  {
  }

  lemma {:induction false} LiveDoc(w: World, u: Uri)
    requires Live(w)
    ensures DocInv(w, u)
  {
  }

  lemma {:induction false} LiveTask(w: World, t: TaskId)
    requires Live(w) && t < |w.tasks|
    ensures TaskInv(w, t)
  {
  }

  // ---------------------------------------------------------------- one step

  /** `w'` is `w` after operation `id` moved on, touching only its own URI's entries. */
  ghost predicate StepOf(w: World, w': World, id: TaskId)
    requires id < |w.tasks|
  {
    var u := w.tasks[id].uri;
    && w'.config == w.config && w'.queues == w.queues && w'.link == w.link && w'.breach == w.breach
    && |w'.tasks| == |w.tasks| && w'.tasks == w.tasks[id := w.tasks[id].(pc := w'.tasks[id].pc)]
    && !w'.tasks[id].pc.Waiting?
    && w'.table.states - {u} == w.table.states - {u}
    && w'.server - {u} == w.server - {u}
    && w'.inFlight - {u} == w.inFlight - {u}
  }

  lemma {:induction false} StepKeeps(w: World, w': World, id: TaskId)
    requires id < |w.tasks| && Live(w) && Turn(w.tasks, id) && StepOf(w, w', id)
    requires DocInv(w', w.tasks[id].uri) && TaskInv(w', id)
    ensures Live(w')
  {
    hide Order, DocInv, TaskInv, Turn;
    OrderKept(w.tasks, w.queues, id, w'.tasks[id].pc);
    var u := w.tasks[id].uri;
    forall v: Uri ensures DocInv(w', v) {
      if v != u { OtherDocKept(w, w', id, v); }
    }
    forall t | 0 <= t < |w'.tasks| ensures TaskInv(w', t) {
      if t != id { OtherTaskKept(w, w', id, t); }
    }
  }

  lemma {:induction false} OtherDocKept(w: World, w': World, id: TaskId, v: Uri)
    requires id < |w.tasks| && StepOf(w, w', id) && v != w.tasks[id].uri && DocInv(w, v)
    ensures DocInv(w', v)
  {
    var u := w.tasks[id].uri;
    OthersUnchanged(w.table.states, w'.table.states, u, v);
    OthersUnchanged(w.server, w'.server, u, v);
    OthersUnchanged(w.inFlight, w'.inFlight, u, v);
    assert v in w.inFlight <==> v in w'.inFlight by { assert Get(w.inFlight, v) == Get(w'.inFlight, v); }
    if v in w.inFlight {
      assert w'.inFlight[v] == w.inFlight[v] by { assert Get(w.inFlight, v) == Get(w'.inFlight, v); }
      assert w.inFlight[v] != id;
    }
  }

  lemma {:induction false} OtherTaskKept(w: World, w': World, id: TaskId, t: TaskId)
    requires id < |w.tasks| && Live(w) && Turn(w.tasks, id) && StepOf(w, w', id) && t < |w.tasks| && t != id
    ensures TaskInv(w', t)
  {
    var u, v := w.tasks[id].uri, w.tasks[t].uri;
    assert TaskInv(w, t);
    if u == v {
      TurnIsExclusive(w, id, t);
    } else {
      OthersUnchanged(w.table.states, w'.table.states, u, v);
      OthersUnchanged(w.inFlight, w'.inFlight, u, v);
      assert Get(w.table.states, v) == Get(w'.table.states, v) && Get(w.inFlight, v) == Get(w'.inFlight, v);
    }
  }

  /** `w1` is `w` with only the entries of the URI of `id` changed; its operations have not moved. */
  ghost predicate Moved(w: World, w1: World, id: TaskId)
    requires id < |w.tasks|
  {
    var u := w.tasks[id].uri;
    && w1 == w.(table := w1.table, server := w1.server, inFlight := w1.inFlight)
    && w1.table.states - {u} == w.table.states - {u}
    && w1.server - {u} == w.server - {u}
    && w1.inFlight - {u} == w.inFlight - {u}
  }

  lemma {:induction false} MovedSteps(w: World, w1: World, id: TaskId, pc: Pc)
    requires id < |w.tasks| && Live(w) && Turn(w.tasks, id) && Moved(w, w1, id) && !pc.Waiting?
    requires DocInv(At(w1, id, pc), w.tasks[id].uri) && TaskInv(At(w1, id, pc), id)
    ensures Kept(w, At(w1, id, pc))
  {
    hide Live, DocInv, TaskInv;
    StepKeeps(w, At(w1, id, pc), id);
  }

  /** Nothing is under way about a URI whose turn belongs to an operation that sends nothing. */
  lemma {:induction false} NothingInFlight(w: World, id: TaskId)
    requires id < |w.tasks| && Live(w) && Turn(w.tasks, id) && !w.tasks[id].pc.Sending?
    ensures w.tasks[id].uri !in w.inFlight
    ensures EntrySound(w.config, w.tasks[id].uri, Get(w.table.states, w.tasks[id].uri), Get(w.server, w.tasks[id].uri))
  {
    var u := w.tasks[id].uri;
    assert DocInv(w, u);
    if u in w.inFlight {
      var t := w.inFlight[u];
      assert t != id;
      TurnIsExclusive(w, id, t);
      assert false;
    }
  }

  lemma {:induction false} PendingPlaysNoPart(w: World, table: ValidTable)
    requires Live(w) && table.states == w.table.states
    ensures Live(w.(table := table))
  {
    var w' := w.(table := table);
    forall u: Uri ensures DocInv(w', u) { assert DocInv(w, u); }
    forall t | 0 <= t < |w.tasks| ensures TaskInv(w', t) { assert TaskInv(w, t); }
  }

  // ---------------------------------------------------------------- the pieces of a step

  /** The table and the server now agree that the document has the text asked for. */
  lemma {:induction false} AfterSyncKeeps(w: World, w1: World, id: TaskId)
    requires id < |w.tasks| && Live(w) && Turn(w.tasks, id) && Moved(w, w1, id) && IsSync(w.tasks[id].op)
    requires var u := w.tasks[id].uri;
             && u !in w1.inFlight && u in w1.table.states
             && EntrySound(w.config, u, Get(w1.table.states, u), Get(w1.server, u))
             && (!w.config.policy.openClose ==> u !in w1.server)
             && w1.table.states[u].text == TextOf(w.tasks[id].op)
             && w1.table.states[u].open == w.config.policy.openClose
    ensures Kept(w, AfterSync(w1, id))
  {
    hide Live, Order, Turn;
    var u := w.tasks[id].uri;
    var pc := if w.tasks[id].op.Outline? then Requesting(w1.table.states[u].version) else Finished(true, None);
    MovedSteps(w, w1, id, pc);
  }

  /** A commit that leaves table and server in agreement. */
  lemma {:induction false} CommittedKeeps(w: World, w1: World, id: TaskId, version: nat, open: bool)
    requires id < |w.tasks| && Live(w) && Turn(w.tasks, id) && Moved(w, w1, id) && IsSync(w.tasks[id].op)
    requires open == w.config.policy.openClose
    requires var u := w.tasks[id].uri;
             && u !in w1.inFlight
             && EntryTrue(w.config, u, Get(w1.table.states, u))
             && Get(w1.server, u) == if open then Some(ServerDocument(w.config.language(u), version, TextOf(w.tasks[id].op))) else None
    ensures Kept(w, Committed(w1, id, version, open))
  {
    hide Live, Order, Turn, Table.Valid, Table.Commit, EntryTrue, AfterSync, Kept;
    var u, task := w.tasks[id].uri, w.tasks[id];
    var table := w1.table.Commit(u, TextOf(task.op), w.config.language(u), version, open, task.op.Sync? && task.op.persistent);
    CommitEntry(w.config, w1.table, u, TextOf(task.op), version, open, task.op.Sync? && task.op.persistent);
    AfterSyncKeeps(w, w1.(table := table), id);
  }

  /** A legal notification about the document puts the server one step ahead of the table. */
  lemma {:induction false} SendKeeps(w: World, table: ValidTable, id: TaskId, note: Notification)
    requires id < |w.tasks| && Live(w) && Turn(w.tasks, id) && w.config.policy.openClose
    requires note.uri == w.tasks[id].uri && table.states == w.table.states && EntryTrue(w.config, note.uri, Get(table.states, note.uri))
    requires var m := Apply(w.config.policy, w.server, note);
             m.Some? && OneAhead(w.config, note.uri, w.tasks[id].(pc := Sending(note)), Get(table.states, note.uri), Get(m.value, note.uri))
    ensures Kept(w, Send(w.(table := table), id, note))
  {
    hide Live, Order, Turn, Apply, OneAhead;
    var u := note.uri;
    ApplyTouchesOne(w.config.policy, w.server, note);
    assert w.inFlight[u := id] - {u} == w.inFlight - {u};
    var w1 := w.(table := table, server := Apply(w.config.policy, w.server, note).value, inFlight := w.inFlight[u := id]);
    assert DocInv(At(w1, id, Sending(note)), u);
    MovedSteps(w, w1, id, Sending(note));
  }

  lemma {:induction false} ApplyTouchesOne(policy: Policy, m: Mirror, note: Notification)
    requires Apply(policy, m, note).Some?
    ensures Apply(policy, m, note).value - {note.uri} == m - {note.uri}
  {
  }

  lemma {:induction false} OpenKeeps(w: World, id: TaskId, version: nat)
    requires id < |w.tasks| && Live(w) && Turn(w.tasks, id) && IsSync(w.tasks[id].op) && !w.tasks[id].pc.Sending? && Coherent(w.config.policy)
    requires var s := Get(w.table.states, w.tasks[id].uri);
             s.Some? ==> !s.value.open && version == s.value.version + 1
    ensures Kept(w, OpenStep(w, id, version))
  {
    hide Live, Order, Turn, Send, Committed, Kept;
    var u, task := w.tasks[id].uri, w.tasks[id];
    NothingInFlight(w, id);
    if w.config.policy.openClose {
      SendKeeps(w, w.table.SetPending(u, version), id, DidOpen(u, w.config.language(u), version, TextOf(task.op)));
    } else {
      CommittedKeeps(w, w, id, version, false);
    }
  }

  lemma {:induction false} ChangeKeeps(w: World, id: TaskId, hint: Hint)
    requires id < |w.tasks| && Live(w) && Turn(w.tasks, id) && IsSync(w.tasks[id].op) && !w.tasks[id].pc.Sending? && Coherent(w.config.policy)
    requires w.tasks[id].uri in w.table.states && w.table.states[w.tasks[id].uri].open == w.config.policy.openClose
    requires GoodHint(w, id, hint)
    ensures Kept(w, ChangeStep(w, id, hint))
  {
    hide Live, Order, Turn, Send, Committed, Edited, ContentFor, GoodHint, Table.Valid, ValidEdit, KeepsMost, Kept;
    var u, kind := w.tasks[id].uri, w.config.policy.change;
    var previous, text := w.table.states[u], TextOf(w.tasks[id].op);
    NothingInFlight(w, id);
    ClosedPolicy(w, u);
    HintIsValid(w, id, hint);
    ContentLeadsTo(kind, previous.text, text, hint.prefix, hint.suffix);
    if kind != NoSync {
      var content := ContentFor(kind, previous.text, text, hint.prefix, hint.suffix);
      SendKeeps(w, w.table.SetPending(u, previous.version + 1), id, DidChange(u, previous.version + 1, content));
    } else {
      CommittedKeeps(w, w, id, previous.version + 1, previous.open);
    }
  }

  lemma {:induction false} QueueKeeps(w: World, uri: Uri, op: Op)
    requires Live(w)
    ensures Live(Queue(w, uri, op))
  {
    hide Order;
    var w' := Queue(w, uri, op);
    QueueKeepsOrder(w.tasks, w.queues, uri, op);
    forall u: Uri ensures DocInv(w', u) { assert DocInv(w, u); }
    forall t | 0 <= t < |w'.tasks| ensures TaskInv(w', t) { if t < |w.tasks| { assert TaskInv(w, t); } }
  }

  lemma {:induction false} MakeRoomKeeps(w: World, id: TaskId, hint: Hint)
    requires id < |w.tasks| && Live(w) && Turn(w.tasks, id) && IsSync(w.tasks[id].op) && !w.tasks[id].pc.Sending? && Coherent(w.config.policy)
    requires w.tasks[id].uri !in w.table.states && GoodHint(w, id, hint)
    ensures Kept(w, MakeRoomStep(w, id, hint))
  {
    hide Live, Order, Turn, OpenStep;
    if |w.table.states| >= w.config.maxDocuments && hint.victim.Some? {
      var w1 := Queue(w, hint.victim.value, Close);
      QueueKeeps(w, hint.victim.value, Close);
      assert Get(w.queues, hint.victim.value) == None;
      NothingInFlight(w, id);
      TurnSurvivesQueue(w, id, hint.victim.value, Close);
      MovedSteps(w1, w1, id, Evicting(|w.tasks|));
    } else {
      OpenKeeps(w, id, 1);
    }
  }

  lemma {:induction false} UseKeeps(w: World, id: TaskId)
    requires id < |w.tasks| && Live(w) && Turn(w.tasks, id) && IsSync(w.tasks[id].op) && w.tasks[id].pc.Waiting?
    requires var u := w.tasks[id].uri;
             u in w.table.states && w.table.states[u].text == TextOf(w.tasks[id].op) && (w.table.states[u].open || !w.config.policy.openClose)
    ensures Kept(w, UseStep(w, id))
  {
    hide Live, Order, Turn, Table.Valid, Table.Touch, Table.MarkPersistent, AfterSync, Kept;
    var u, op := w.tasks[id].uri, w.tasks[id].op;
    NothingInFlight(w, id);
    ClosedPolicy(w, u);
    UseEntry(w.table, u);
    var table := if op.Sync? && op.persistent then w.table.MarkPersistent(u) else w.table.Touch(u);
    AfterSyncKeeps(w, w.(table := table), id);
  }

  lemma {:induction false} SyncKeeps(w: World, id: TaskId, hint: Hint)
    requires id < |w.tasks| && Live(w) && Turn(w.tasks, id) && IsSync(w.tasks[id].op) && w.tasks[id].pc.Waiting? && Coherent(w.config.policy)
    requires GoodHint(w, id, hint)
    ensures Kept(w, SyncStep(w, id, hint))
  {
    hide Live, Order, Turn, GoodHint, MakeRoomStep, OpenStep, UseStep, ChangeStep, Kept;
    var u := w.tasks[id].uri;
    if u !in w.table.states {
      MakeRoomKeeps(w, id, hint);
    } else {
      KnownSyncKeeps(w, id, hint);
    }
  }

  lemma {:induction false} KnownSyncKeeps(w: World, id: TaskId, hint: Hint)
    requires id < |w.tasks| && w.tasks[id].uri in w.table.states
    requires id < |w.tasks| && Live(w) && Turn(w.tasks, id) && IsSync(w.tasks[id].op) && w.tasks[id].pc.Waiting? && Coherent(w.config.policy)
    requires GoodHint(w, id, hint)
    ensures Kept(w, SyncStep(w, id, hint))
  {
    hide Live, Order, Turn, GoodHint, OpenStep, UseStep, ChangeStep, Kept;
    var u, op := w.tasks[id].uri, w.tasks[id].op;
    var previous := w.table.states[u];
    if previous.text == TextOf(op) && previous.languageId == w.config.language(u) && (previous.open || !w.config.policy.openClose) {
      UseKeeps(w, id);
    } else if w.config.policy.openClose && !previous.open {
      OpenKeeps(w, id, previous.version + 1);
    } else {
      NeverOpened(w, u);
      ChangeKeeps(w, id, hint);
    }
  }

  lemma {:induction false} NeverOpened(w: World, u: Uri)
    requires Live(w) && u in w.table.states
    ensures w.table.states[u].open ==> w.config.policy.openClose
  {
    assert DocInv(w, u);
  }

  /** A server that is told nothing holds nothing. */
  lemma {:induction false} ClosedPolicy(w: World, u: Uri)
    requires Live(w)
    ensures !w.config.policy.openClose ==> u !in w.server
  {
    assert DocInv(w, u);
  }

  lemma {:induction false} ClosedKeeps(w: World, w1: World, id: TaskId)
    requires id < |w.tasks| && Live(w) && Turn(w.tasks, id) && Moved(w, w1, id)
    requires var u := w.tasks[id].uri;
             u !in w1.inFlight && u !in w1.server && EntryTrue(w.config, u, Get(w1.table.states, u))
    ensures Kept(w, Closed(w1, id))
  {
    hide Live, Order, Turn, Table.Valid, Table.MarkClosed, Table.Remove, EntryTrue;
    var u, task := w.tasks[id].uri, w.tasks[id];
    var table := if task.op.CloseTransient? then w1.table.MarkClosed(u) else w1.table.Remove(u);
    ClosedEntry(w.config, w1.table, u);
    MovedSteps(w, w1.(table := table), id, Finished(true, None));
  }

  lemma {:induction false} CloseKeeps(w: World, id: TaskId, hint: Hint)
    requires id < |w.tasks| && Live(w) && Turn(w.tasks, id) && !IsSync(w.tasks[id].op) && w.tasks[id].pc.Waiting? && Coherent(w.config.policy)
    requires GoodHint(w, id, hint)
    ensures Kept(w, StartStep(w, id, hint))
  {
    hide Live, Order, Turn, GoodHint, Send, Closed, SyncStep;
    var u, task := w.tasks[id].uri, w.tasks[id];
    var state := Get(w.table.states, u);
    NothingInFlight(w, id);
    ClosedPolicy(w, u);
    if state.None? || (task.op.CloseTransient? && state.value.persistent) {
      MovedSteps(w, w, id, Finished(true, None));
    } else if state.value.open {
      SendKeeps(w, w.table, id, DidClose(u));
    } else {
      ClosedKeeps(w, w, id);
    }
  }

  lemma {:induction false} StartKeeps(w: World, id: TaskId, hint: Hint)
    requires Inv(w) && Enabled(w, Start(id, hint))
    ensures Kept(w, StartStep(w, id, hint))
  {
    hide Live, Order, Turn, SyncStep, Send, Closed, GoodHint, CacheHit;
    LiveOrder(w);
    StartHasTurn(w, id);
    if CacheHit(w, id) {
      HitKeeps(w, id);
    } else if IsSync(w.tasks[id].op) {
      SyncKeeps(w, id, hint);
    } else {
      CloseKeeps(w, id, hint);
    }
  }

  lemma {:induction false} HitKeeps(w: World, id: TaskId)
    requires id < |w.tasks| && Live(w) && Turn(w.tasks, id) && w.tasks[id].pc.Waiting? && CacheHit(w, id)
    ensures var u := w.tasks[id].uri;
            Kept(w, At(w.(table := w.table.Touch(u)), id, Finished(true, Some(w.table.states[u].cached.value.value))))
  {
    hide Live, Order, Turn, Table.Valid, Table.Touch;
    var u := w.tasks[id].uri;
    NothingInFlight(w, id);
    ClosedPolicy(w, u);
    UseEntry(w.table, u);
    MovedSteps(w, w.(table := w.table.Touch(u)), id, Finished(true, Some(w.table.states[u].cached.value.value)));
  }

  lemma {:induction false} ConfirmKeeps(w: World, id: TaskId)
    requires Inv(w) && Enabled(w, Confirm(id))
    ensures Kept(w, ConfirmStep(w, id))
  {
    hide Live, Order, Turn, Table.Valid, Closed, Committed;
    LiveOrder(w);
    RunningHasTurn(w, id);
    var u, note := w.tasks[id].uri, w.tasks[id].pc.note;
    LiveTask(w, id);
    LiveDoc(w, u);
    if note.DidClose? {
      ClosedKeeps(w, w.(inFlight := w.inFlight - {u}), id);
    } else {
      ConfirmSyncKeeps(w, id);
    }
  }

  lemma {:induction false} ConfirmSyncKeeps(w: World, id: TaskId)
    requires Inv(w) && Enabled(w, Confirm(id)) && Turn(w.tasks, id) && !w.tasks[id].pc.note.DidClose?
    ensures Kept(w, ConfirmStep(w, id))
  {
    hide Live, Order, Turn, Table.Valid, Committed;
    var u, note := w.tasks[id].uri, w.tasks[id].pc.note;
    LiveTask(w, id);
    LiveDoc(w, u);
    var settled := w.(inFlight := w.inFlight - {u});
    CommittedKeeps(w, settled, id, note.version, true);
    var done := Committed(settled, id, note.version, true);
    PendingPlaysNoPart(done, done.table.ClearPending(u, note.version));
  }

  lemma {:induction false} AnswerKeeps(w: World, id: TaskId, answered: bool)
    requires Inv(w) && Enabled(w, Answer(id, answered))
    ensures Kept(w, AnswerStep(w, id, answered))
  {
    hide Live, Order, Turn, Table.Valid;
    LiveOrder(w);
    RunningHasTurn(w, id);
    var u, task := w.tasks[id].uri, w.tasks[id];
    LiveTask(w, id);
    NothingInFlight(w, id);
    ClosedPolicy(w, u);
    if answered && u in w.server {
      var value := w.config.outline(w.server[u].text, w.server[u].languageId);
      var table := w.table.CacheSymbols(u, task.pc.version, value);
      assert table.states - {u} == w.table.states - {u};
      MovedSteps(w, w.(table := table), id, Finished(true, Some(value)));
    } else {
      MovedSteps(w, w, id, Finished(true, None));
    }
  }

  lemma {:induction false} ResumeKeeps(w: World, id: TaskId, hint: Hint)
    requires Inv(w) && Enabled(w, Resume(id, hint))
    ensures Kept(w, Next(w, Resume(id, hint)))
  {
    hide Live, Order, Turn, MakeRoomStep, OpenStep, GoodHint;
    LiveOrder(w);
    RunningHasTurn(w, id);
    LiveTask(w, id);
    if w.tasks[w.tasks[id].pc.child].pc.ok {
      MakeRoomKeeps(w, id, hint);
    } else {
      OpenKeeps(w, id, 1);
    }
  }

  lemma {:induction false} SettleKeeps(w: World, id: TaskId)
    requires Inv(w) && Enabled(w, Settle(id))
    ensures Carried(w, Next(w, Settle(id)))
  {
    hide Order;
    var w' := Next(w, Settle(id));
    SettleKeepsOrder(w.tasks, w.queues, id);
    forall u: Uri ensures DocInv(w', u) { assert DocInv(w, u); }
    forall t | 0 <= t < |w.tasks| ensures TaskInv(w', t) { assert TaskInv(w, t); }
  }

  lemma {:induction false} OrderChains(tasks: seq<Task>, queues: map<Uri, TaskId>)
    requires Order(tasks, queues)
    ensures Chained(tasks)
  {
  }

  lemma {:induction false} EmptyDoc(w: World, u: Uri)
    requires w.table.states == map[] && w.server == map[] && w.inFlight == map[]
    ensures DocInv(w, u)
  {
  }

  lemma {:induction false} KeptCarries(w: World, w': World)
    requires Inv(w) && w.link != Crashed && Kept(w, w')
    ensures Carried(w, w')
  {
    hide Live, Chained;
    LiveAnswers(w');
    LiveOrder(w');
    OrderChains(w'.tasks, w'.queues);
  }

  lemma {:induction false} NextKeeps(w: World, a: Action)
    requires Inv(w) && Enabled(w, a)
    ensures Carried(w, Next(w, a))
  {
    hide Live, StartStep, ConfirmStep, AnswerStep, MakeRoomStep, OpenStep, GoodHint, Table.Valid;
    match a
    case Enqueue(uri, op) =>
      QueueKeeps(w, uri, op);
      KeptCarries(w, Queue(w, uri, op));
    case Start(id, hint) =>
      StartKeeps(w, id, hint);
      KeptCarries(w, StartStep(w, id, hint));
    case Resume(id, hint) =>
      ResumeKeeps(w, id, hint);
      KeptCarries(w, Next(w, a));
    case Confirm(id) =>
      ConfirmKeeps(w, id);
      KeptCarries(w, ConfirmStep(w, id));
    case Answer(id, answered) =>
      AnswerKeeps(w, id, answered);
      KeptCarries(w, AnswerStep(w, id, answered));
    case Settle(id) => SettleKeeps(w, id);
    case Crash => assert Carried(w, Next(w, a));
    case Restart => RestartKeeps(w);
    case Stop => StopKeeps(w);
  }

  lemma {:induction false} RestartKeeps(w: World)
    requires Inv(w) && Enabled(w, Restart)
    ensures Carried(w, Next(w, Restart))
  {
    var w' := Next(w, Restart);
    forall u: Uri ensures DocInv(w', u) { assert DocInv(w, u); }
    forall t | 0 <= t < |w.tasks| ensures TaskInv(w', t) { assert TaskInv(w, t); }
  }

  lemma {:induction false} StopKeeps(w: World)
    requires Inv(w) && Enabled(w, Stop)
    ensures Carried(w, Next(w, Stop))
  {
    hide Order, Chained;
    var w' := Next(w, Stop);
    EndedInOrder(w.tasks);
    OrderChains(w'.tasks, w'.queues);
    forall u: Uri ensures DocInv(w', u) { EmptyDoc(w', u); }
    forall t | 0 <= t < |w.tasks| ensures TaskInv(w', t) { assert AnswerTrue(w.config, w.tasks[t]); }
  }

  // ---------------------------------------------------------------- over whole runs

  lemma {:induction false} RunInv(config: Config, actions: seq<Action>)
    requires Coherent(config.policy)
    ensures var w := Run(config, actions); w.Some? ==> Inv(w.value) && w.value.config == config
  {
    if actions != [] {
      var w := Run(config, actions[..|actions| - 1]);
      RunInv(config, actions[..|actions| - 1]);
      if w.Some? && Enabled(w.value, actions[|actions| - 1]) { NextKeeps(w.value, actions[|actions| - 1]); }
    }
  }
}
