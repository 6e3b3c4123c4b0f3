/** What runs do to the entry of one document, and what they tell the server, whatever it announced:
  * src/lsp/client.ts, lines 510-608, and src/lsp/documents.ts, lines 63-118. */
module DocumentEntries {
  import opened DocumentOrder
  import opened DocumentTable
  import opened DocumentTasks
  import opened LspProtocol
  import opened TextEdits
  import opened Utf16
  import opened Wrappers

  /** Nothing is open at a server that was not told, every notification under way is one the server asked
    * for, and nobody asked to keep open what is being closed for a passing use. */
  ghost predicate Considerate(w: World)
  {
    && (forall u | u in w.table.states :: w.table.states[u].open ==> w.config.policy.openClose)
    && (forall t | 0 <= t < |w.tasks| :: NoteFits(w, w.tasks[t]))
    && (w.link != Crashed ==> PendingTold(w))
  }

  /** The version an operation has told the server of but not yet recorded. */
  function PendingOf(pc: Pc): Option<nat>
  {
    if pc.Sending? && !pc.note.DidClose? then Some(NoteVersion(pc.note)) else None
  }

  /** A version is pending exactly while a notification with it is under way. */
  ghost predicate PendingTold(w: World)
  {
    && (forall t | 0 <= t < |w.tasks| && PendingOf(w.tasks[t].pc).Some? :: Get(w.table.pending, w.tasks[t].uri) == PendingOf(w.tasks[t].pc))
    && (forall u | u in w.table.pending :: exists t :: Telling(w, u, t))
  }

  ghost predicate Telling(w: World, u: Uri, t: TaskId)
  {
    t < |w.tasks| && w.tasks[t].uri == u && PendingOf(w.tasks[t].pc).Some?
  }

  ghost predicate NoteFits(w: World, task: Task)
  {
    task.pc.Sending? ==>
      && Suits(w.config.policy, task.pc.note)
      && (task.op.CloseTransient? && task.uri in w.table.states ==> !w.table.states[task.uri].persistent)
  }

  /** What a step of an operation does to the entry of its document, given what the operation is and what it
    * does next. An entry that changes has been used now; one that is kept open stays so unless it is closed. */
  ghost predicate GoodEntry(w: World, op: Op, pc: Pc, s: Option<DocumentState>, s': Option<DocumentState>)
  {
    && (s'.Some? && s'.value.open ==> w.config.policy.openClose)
    && (pc.Sending? ==> s' == s && Suits(w.config.policy, pc.note) && (op.CloseTransient? && s.Some? ==> !s.value.persistent))
    && (s.Some? && s.value.persistent && !op.Close? ==> s'.Some? && s'.value.persistent)
    && (s'.Some? && s' != s ==> s'.value.lastUsed == w.table.clock + 1)
    && (op.Sync? && pc.Finished? && pc.ok ==> s'.Some? && s' != s && s'.value.text == op.text && (op.persistent ==> s'.value.persistent))
  }

  ghost predicate GoodStep(w: World, w': World, id: TaskId)
    requires id < |w.tasks|
  {
    var u := w.tasks[id].uri;
    id < |w'.tasks| && GoodEntry(w, w.tasks[id].op, w'.tasks[id].pc, Get(w.table.states, u), Get(w'.table.states, u))
  }

  /** The step keeps what is pending about its document in line with what the operation does next. */
  ghost predicate PendingMoves(w: World, w': World, id: TaskId)
    requires id < |w.tasks|
  {
    var u := w.tasks[id].uri;
    && id < |w'.tasks| && w'.table.pending - {u} == w.table.pending - {u}
    && Get(w'.table.pending, u) == PendingOf(w'.tasks[id].pc)
  }

  lemma {:induction false} ConsiderateEntry(w: World, u: Uri)
    requires Considerate(w)
    ensures u in w.table.states && w.table.states[u].open ==> w.config.policy.openClose
  {
  }

  // ---------------------------------------------------------------- the pieces of a step

  /** `w1` is `w` with another table, by one of the table's operations on the document. */
  lemma {:induction false} CommitIsGood(t: Table, uri: Uri, text: Text, languageId: LanguageId, version: nat, open: bool, persistent: bool)
    requires t.Valid()
    ensures var s, after := Get(t.states, uri), t.Commit(uri, text, languageId, version, open, persistent).states;
            && uri in after && after[uri].lastUsed == t.clock + 1 && Some(after[uri]) != s
            && after[uri].open == open && after[uri].text == text
            && after[uri].persistent == (persistent || (s.Some? && s.value.persistent))
  {
  }

  lemma {:induction false} UsesAreGood(t: Table, uri: Uri)
    requires t.Valid() && uri in t.states
    ensures t.Touch(uri).states == t.states[uri := t.states[uri].(lastUsed := t.clock + 1)]
    ensures t.MarkPersistent(uri).states == t.states[uri := t.states[uri].(lastUsed := t.clock + 1, persistent := true)]
    ensures t.MarkClosed(uri).states == t.states[uri := t.states[uri].(lastUsed := t.clock + 1, open := false, persistent := false)]
  {
    hide Table.Valid;
  }

  lemma {:induction false} CommittedIsGood(w: World, w1: World, id: TaskId, version: nat, open: bool)
    requires id < |w.tasks| && w1 == w.(inFlight := w1.inFlight) && IsSync(w.tasks[id].op) && (open ==> w.config.policy.openClose)
    ensures GoodStep(w, Committed(w1, id, version, open), id)
  {
    hide Table.Valid, Table.Commit;
    var task := w.tasks[id];
    CommitIsGood(w.table, task.uri, TextOf(task.op), w.config.language(task.uri), version, open, task.op.Sync? && task.op.persistent);
  }

  lemma {:induction false} SendIsGood(w: World, w1: World, id: TaskId, note: Notification)
    requires id < |w.tasks| && Considerate(w) && w1 == w.(table := w1.table) && w1.table.states == w.table.states && Suits(w.config.policy, note)
    requires var s := Get(w.table.states, w.tasks[id].uri); w.tasks[id].op.CloseTransient? && s.Some? ==> !s.value.persistent
    ensures GoodStep(w, Send(w1, id, note), id)
  {
    hide Apply, Suits, NoteFits;
  }

  lemma {:induction false} OpenIsGood(w: World, id: TaskId, version: nat)
    requires id < |w.tasks| && Considerate(w) && IsSync(w.tasks[id].op)
    ensures GoodStep(w, OpenStep(w, id, version), id)
  {
    hide Considerate, GoodStep, Send, Committed, Table.Valid;
    var task := w.tasks[id];
    if w.config.policy.openClose {
      SendIsGood(w, w.(table := w.table.SetPending(task.uri, version)), id, DidOpen(task.uri, w.config.language(task.uri), version, TextOf(task.op)));
    } else {
      CommittedIsGood(w, w, id, version, false);
    }
  }

  lemma {:induction false} UseIsGood(w: World, id: TaskId)
    requires id < |w.tasks| && Considerate(w) && w.tasks[id].uri in w.table.states
    requires w.table.states[w.tasks[id].uri].text == TextOf(w.tasks[id].op)
    ensures GoodStep(w, UseStep(w, id), id)
  {
    hide Table.Valid, Table.Touch, Table.MarkPersistent, NoteFits;
    var uri := w.tasks[id].uri;
    UsesAreGood(w.table, uri);
    Stamped(w.table, uri);
  }

  /** A stamp is never the next one already. */
  lemma {:induction false} Stamped(t: Table, uri: Uri)
    requires t.Valid() && uri in t.states
    ensures t.states[uri].lastUsed <= t.clock
  {
  }

  lemma {:induction false} ChangeIsGood(w: World, id: TaskId, hint: Hint)
    requires id < |w.tasks| && GoodHint(w, id, hint) && IsSync(w.tasks[id].op) && w.tasks[id].uri in w.table.states && Considerate(w)
    ensures GoodStep(w, ChangeStep(w, id, hint), id)
  {
    hide Considerate, GoodHint, GoodStep, Send, Committed, ContentFor, Edited, Table.Valid, ValidEdit;
    HintIsValid(w, id, hint);
    var task, kind := w.tasks[id], w.config.policy.change;
    ConsiderateEntry(w, task.uri);
    var previous := w.table.states[task.uri];
    if kind != NoSync {
      ContentLeadsTo(kind, previous.text, TextOf(task.op), hint.prefix, hint.suffix);
      var content := ContentFor(kind, previous.text, TextOf(task.op), hint.prefix, hint.suffix);
      SendIsGood(w, w.(table := w.table.SetPending(task.uri, previous.version + 1)), id, DidChange(task.uri, previous.version + 1, content));
    } else {
      CommittedIsGood(w, w, id, previous.version + 1, previous.open);
    }
  }

  lemma {:induction false} MakeRoomIsGood(w: World, id: TaskId, hint: Hint)
    requires id < |w.tasks| && Considerate(w) && IsSync(w.tasks[id].op) && w.tasks[id].uri !in w.table.states
    ensures GoodStep(w, MakeRoomStep(w, id, hint), id)
  {
    hide Considerate, OpenStep;
    OpenIsGood(w, id, 1);
  }

  lemma {:induction false} SyncIsGood(w: World, id: TaskId, hint: Hint)
    requires id < |w.tasks| && Considerate(w) && IsSync(w.tasks[id].op) && GoodHint(w, id, hint)
    ensures GoodStep(w, SyncStep(w, id, hint), id)
  {
    hide Considerate, GoodStep, GoodHint, MakeRoomStep, OpenStep, UseStep, ChangeStep;
    var uri := w.tasks[id].uri;
    if uri !in w.table.states {
      MakeRoomIsGood(w, id, hint);
    } else {
      OpenIsGood(w, id, w.table.states[uri].version + 1);
      ChangeIsGood(w, id, hint);
      if w.table.states[uri].text == TextOf(w.tasks[id].op) { UseIsGood(w, id); }
    }
  }

  lemma {:induction false} ClosedIsGood(w: World, w1: World, id: TaskId)
    requires id < |w.tasks| && w1 == w.(inFlight := w1.inFlight) && Considerate(w) && !IsSync(w.tasks[id].op)
    requires var s := Get(w.table.states, w.tasks[id].uri); w.tasks[id].op.CloseTransient? && s.Some? ==> !s.value.persistent
    ensures GoodStep(w, Closed(w1, id), id)
  {
    hide Table.Valid, NoteFits;
    if w.tasks[id].uri in w.table.states { UsesAreGood(w.table, w.tasks[id].uri); }
  }

  lemma {:induction false} HitIsGood(w: World, id: TaskId)
    requires id < |w.tasks| && Considerate(w) && CacheHit(w, id)
    ensures var uri := w.tasks[id].uri;
            GoodStep(w, At(w.(table := w.table.Touch(uri)), id, Finished(true, Some(w.table.states[uri].cached.value.value))), id)
  {
    hide Table.Valid, Table.Touch, NoteFits;
    UsesAreGood(w.table, w.tasks[id].uri);
  }

  lemma {:induction false} NothingIsGood(w: World, id: TaskId)
    requires id < |w.tasks| && Considerate(w) && !IsSync(w.tasks[id].op)
    ensures GoodStep(w, At(w, id, Finished(true, None)), id)
  {
    hide NoteFits;
  }

  lemma {:induction false} StartIsGood(w: World, id: TaskId, hint: Hint)
    requires Considerate(w) && Enabled(w, Start(id, hint))
    ensures GoodStep(w, StartStep(w, id, hint), id)
  {
    hide Considerate, GoodStep, GoodHint, SyncStep, Send, Closed, CacheHit, At, Table.Valid;
    var task := w.tasks[id];
    if CacheHit(w, id) {
      HitIsGood(w, id);
    } else if IsSync(task.op) {
      SyncIsGood(w, id, hint);
    } else {
      ConsiderateEntry(w, task.uri);
      NothingIsGood(w, id);
      if task.uri in w.table.states && !(task.op.CloseTransient? && w.table.states[task.uri].persistent) {
        if w.table.states[task.uri].open { SendIsGood(w, w, id, DidClose(task.uri)); }
        ClosedIsGood(w, w, id);
      }
    }
  }

  lemma {:induction false} ConfirmIsGood(w: World, id: TaskId)
    requires Considerate(w) && Ordered(w) && Enabled(w, Confirm(id))
    ensures GoodStep(w, ConfirmStep(w, id), id)
  {
    hide Considerate, Ordered, Closed, Committed, Table.Valid, Suits;
    OrderedShape(w, id);
    ConsiderateNote(w, id);
    var u, note := w.tasks[id].uri, w.tasks[id].pc.note;
    ConsiderateEntry(w, u);
    var settled := w.(inFlight := w.inFlight - {u});
    if note.DidClose? {
      ClosedIsGood(w, settled, id);
    } else {
      SuitsOpen(w.config.policy, note);
      CommittedIsGood(w, settled, id, NoteVersion(note), if note.DidOpen? then true else u in w.table.states && w.table.states[u].open);
    }
  }

  lemma {:induction false} SuitsOpen(policy: Policy, note: Notification)
    requires Suits(policy, note)
    ensures note.DidOpen? ==> policy.openClose
  {
  }

  lemma {:induction false} ConsiderateNote(w: World, id: TaskId)
    requires Considerate(w) && id < |w.tasks|
    ensures NoteFits(w, w.tasks[id])
  {
  }

  lemma {:induction false} AnswerIsGood(w: World, id: TaskId, answered: bool)
    requires Considerate(w) && Ordered(w) && Enabled(w, Answer(id, answered))
    ensures GoodStep(w, AnswerStep(w, id, answered), id)
  {
    hide Ordered, Table.Valid, NoteFits;
    OrderedShape(w, id);
  }

  lemma {:induction false} ResumeIsGood(w: World, id: TaskId, hint: Hint)
    requires Considerate(w) && Ordered(w) && Enabled(w, Resume(id, hint))
    ensures GoodStep(w, Next(w, Resume(id, hint)), id)
  {
    hide Considerate, Ordered, GoodStep, MakeRoomStep, OpenStep, GoodHint;
    OrderedShape(w, id);
    MakeRoomIsGood(w, id, hint);
    OpenIsGood(w, id, 1);
  }

  // ---------------------------------------------------------------- pending versions

  lemma {:induction false} TableKeepsPending(t: Table, uri: Uri, text: Text, languageId: LanguageId, version: nat, open: bool, persistent: bool, value: Symbols)
    requires t.Valid()
    ensures t.Commit(uri, text, languageId, version, open, persistent).pending == t.pending
    ensures t.Touch(uri).pending == t.MarkPersistent(uri).pending == t.MarkClosed(uri).pending == t.Remove(uri).pending == t.pending
    ensures t.CacheSymbols(uri, version, value).pending == t.pending
  {
    hide Table.Valid;
  }

  lemma {:induction false} CommittedPending(w: World, id: TaskId, version: nat, open: bool)
    requires id < |w.tasks|
    ensures var w' := Committed(w, id, version, open); w'.table.pending == w.table.pending && |w'.tasks| == |w.tasks| && !w'.tasks[id].pc.Sending?
  {
    hide Table.Valid, Table.Commit;
    var task := w.tasks[id];
    TableKeepsPending(w.table, task.uri, TextOf(task.op), w.config.language(task.uri), version, open, task.op.Sync? && task.op.persistent, Symbols([]));
  }

  lemma {:induction false} SendPending(w: World, w1: World, id: TaskId, note: Notification)
    requires id < |w.tasks| && w1 == w.(table := w1.table) && w.tasks[id].uri !in w.table.pending
    requires w1.table.pending == if note.DidClose? then w.table.pending else w.table.pending[w.tasks[id].uri := NoteVersion(note)]
    ensures PendingMoves(w, Send(w1, id, note), id)
  {
    hide Apply, Table.Valid;
    var u := w.tasks[id].uri;
    assert w.table.pending[u := NoteVersion(note)] - {u} == w.table.pending - {u};
  }

  lemma {:induction false} OpenPending(w: World, id: TaskId, version: nat)
    requires id < |w.tasks| && w.tasks[id].uri !in w.table.pending
    ensures PendingMoves(w, OpenStep(w, id, version), id)
  {
    hide Send, Committed, Table.Valid;
    var task := w.tasks[id];
    SendPending(w, w.(table := w.table.SetPending(task.uri, version)), id, DidOpen(task.uri, w.config.language(task.uri), version, TextOf(task.op)));
    CommittedPending(w, id, version, false);
  }

  lemma {:induction false} ChangePending(w: World, id: TaskId, hint: Hint)
    requires id < |w.tasks| && GoodHint(w, id, hint) && IsSync(w.tasks[id].op) && w.tasks[id].uri in w.table.states && w.tasks[id].uri !in w.table.pending
    ensures PendingMoves(w, ChangeStep(w, id, hint), id)
  {
    hide GoodHint, Send, Committed, ContentFor, Table.Valid;
    HintIsValid(w, id, hint);
    var task, kind := w.tasks[id], w.config.policy.change;
    var previous := w.table.states[task.uri];
    var content := ContentFor(kind, previous.text, TextOf(task.op), hint.prefix, hint.suffix);
    SendPending(w, w.(table := w.table.SetPending(task.uri, previous.version + 1)), id, DidChange(task.uri, previous.version + 1, content));
    CommittedPending(w, id, previous.version + 1, previous.open);
  }

  lemma {:induction false} UsePending(w: World, id: TaskId)
    requires id < |w.tasks| && w.tasks[id].uri !in w.table.pending
    ensures PendingMoves(w, UseStep(w, id), id)
  {
    hide Table.Valid, Table.Touch, Table.MarkPersistent;
    TableKeepsPending(w.table, w.tasks[id].uri, [], "", 0, false, false, Symbols([]));
  }

  lemma {:induction false} MakeRoomPending(w: World, id: TaskId, hint: Hint)
    requires id < |w.tasks| && w.tasks[id].uri !in w.table.pending
    ensures PendingMoves(w, MakeRoomStep(w, id, hint), id)
  {
    hide OpenStep, Table.Valid;
    OpenPending(w, id, 1);
  }

  lemma {:induction false} ClosedPending(w: World, w1: World, id: TaskId)
    requires id < |w.tasks| && w1 == w.(inFlight := w1.inFlight) && w.tasks[id].uri !in w.table.pending
    ensures PendingMoves(w, Closed(w1, id), id)
  {
    hide Table.Valid, Table.MarkClosed, Table.Remove;
    TableKeepsPending(w.table, w.tasks[id].uri, [], "", 0, false, false, Symbols([]));
  }

  lemma {:induction false} StartPending(w: World, id: TaskId, hint: Hint)
    requires Enabled(w, Start(id, hint)) && w.tasks[id].uri !in w.table.pending
    ensures PendingMoves(w, StartStep(w, id, hint), id)
  {
    hide GoodHint, Send, Closed, CacheHit, SyncStep, Table.Valid, Table.Touch, PendingMoves;
    var u := w.tasks[id].uri;
    if CacheHit(w, id) {
      HitPending(w, id);
    } else if IsSync(w.tasks[id].op) {
      SyncPending(w, id, hint);
    } else {
      NothingPending(w, id);
      SendPending(w, w, id, DidClose(u));
      ClosedPending(w, w, id);
    }
  }

  lemma {:induction false} HitPending(w: World, id: TaskId)
    requires id < |w.tasks| && CacheHit(w, id) && w.tasks[id].uri !in w.table.pending
    ensures var u := w.tasks[id].uri;
            PendingMoves(w, At(w.(table := w.table.Touch(u)), id, Finished(true, Some(w.table.states[u].cached.value.value))), id)
  {
    hide Table.Valid, Table.Touch;
    TableKeepsPending(w.table, w.tasks[id].uri, [], "", 0, false, false, Symbols([]));
  }

  lemma {:induction false} NothingPending(w: World, id: TaskId)
    requires id < |w.tasks| && w.tasks[id].uri !in w.table.pending
    ensures PendingMoves(w, At(w, id, Finished(true, None)), id)
  {
  }

  lemma {:induction false} SyncPending(w: World, id: TaskId, hint: Hint)
    requires id < |w.tasks| && GoodHint(w, id, hint) && IsSync(w.tasks[id].op) && w.tasks[id].uri !in w.table.pending
    ensures PendingMoves(w, SyncStep(w, id, hint), id)
  {
    hide GoodHint, Table.Valid, OpenStep, UseStep, ChangeStep, MakeRoomStep, PendingMoves;
    var u := w.tasks[id].uri;
    MakeRoomPending(w, id, hint);
    UsePending(w, id);
    if u in w.table.states {
      OpenPending(w, id, w.table.states[u].version + 1);
      ChangePending(w, id, hint);
    }
  }

  lemma {:induction false} ConfirmPending(w: World, id: TaskId)
    requires Ordered(w) && Enabled(w, Confirm(id)) && Get(w.table.pending, w.tasks[id].uri) == PendingOf(w.tasks[id].pc)
    ensures PendingMoves(w, ConfirmStep(w, id), id)
  {
    hide Ordered, Closed, Committed, Table.Valid;
    OrderedShape(w, id);
    var u, note := w.tasks[id].uri, w.tasks[id].pc.note;
    var settled := w.(inFlight := w.inFlight - {u});
    if note.DidClose? {
      ClosedPending(w, settled, id);
    } else {
      CommittedPending(settled, id, NoteVersion(note), if note.DidOpen? then true else u in w.table.states && w.table.states[u].open);
      assert u in w.table.pending && w.table.pending[u] == NoteVersion(note);
    }
  }

  lemma {:induction false} AnswerPending(w: World, id: TaskId, answered: bool)
    requires Enabled(w, Answer(id, answered)) && w.tasks[id].uri !in w.table.pending
    ensures PendingMoves(w, AnswerStep(w, id, answered), id)
  {
    hide Table.Valid, Table.CacheSymbols;
    var u := w.tasks[id].uri;
    if u in w.server {
      TableKeepsPending(w.table, u, [], "", w.tasks[id].pc.version, false, false, w.config.outline(w.server[u].text, w.server[u].languageId));
    }
  }

  /** Whoever has the turn knows what is pending about its document. */
  lemma {:induction false} PendingHere(w: World, id: TaskId)
    requires PendingTold(w) && Order(w.tasks, w.queues) && Turn(w.tasks, id) && id < |w.tasks|
    ensures Get(w.table.pending, w.tasks[id].uri) == PendingOf(w.tasks[id].pc)
  {
    hide Order, Turn;
    var u := w.tasks[id].uri;
    if u in w.table.pending && PendingOf(w.tasks[id].pc).None? {
      var t :| Telling(w, u, t);
      TurnIsExclusive(w, id, t);
    }
  }

  lemma {:induction false} PendingKept(w: World, w': World, id: TaskId)
    requires PendingTold(w) && Order(w.tasks, w.queues) && Turn(w.tasks, id) && id < |w.tasks| <= |w'.tasks|
    requires PendingMoves(w, w', id) && w'.tasks[id].uri == w.tasks[id].uri
    requires forall t | 0 <= t < |w'.tasks| && t != id :: if t < |w.tasks| then w'.tasks[t] == w.tasks[t] else w'.tasks[t].pc.Waiting?
    ensures PendingTold(w')
  {
    hide Order, Turn;
    var u := w.tasks[id].uri;
    forall t | 0 <= t < |w'.tasks| && PendingOf(w'.tasks[t].pc).Some? ensures Get(w'.table.pending, w'.tasks[t].uri) == PendingOf(w'.tasks[t].pc) {
      if t != id {
        if w.tasks[t].uri == u { TurnIsExclusive(w, id, t); }
        OthersUnchanged(w.table.pending, w'.table.pending, u, w.tasks[t].uri);
      }
    }
    forall v | v in w'.table.pending ensures exists t :: Telling(w', v, t) {
      if v == u {
        assert Telling(w', v, id);
      } else {
        OthersUnchanged(w.table.pending, w'.table.pending, u, v);
        assert Get(w.table.pending, v) == Get(w'.table.pending, v);
        var t :| Telling(w, v, t);
        assert Telling(w', v, t);
      }
    }
  }

  // ---------------------------------------------------------------- every step

  /** A step of one operation touches no other entry and no other operation. */
  lemma {:induction false} ProgressTouchesOne(w: World, w': World, id: TaskId)
    requires id < |w.tasks| && Progress(w, w', id)
    ensures w'.config == w.config && |w.tasks| <= |w'.tasks| && w'.table.states - {w.tasks[id].uri} == w.table.states - {w.tasks[id].uri}
    ensures forall t | 0 <= t < |w'.tasks| && t != id :: if t < |w.tasks| then w'.tasks[t] == w.tasks[t] else w'.tasks[t].pc.Waiting?
    ensures w'.tasks[id].uri == w.tasks[id].uri && w'.tasks[id].op == w.tasks[id].op
  {
    hide Shape;
  }

  lemma {:induction false} GoodStepKeeps(w: World, w': World, id: TaskId)
    requires Considerate(w) && Ordered(w) && w.link != Crashed && id < |w.tasks| && Turn(w.tasks, id)
    requires Progress(w, w', id) && GoodStep(w, w', id) && PendingMoves(w, w', id)
    ensures Considerate(w')
  {
    hide Ordered, Order, Progress, Turn, Suits, Table.Valid, PendingTold, PendingMoves;
    ProgressTouchesOne(w, w', id);
    OrderedIsOrder(w);
    PendingKept(w, w', id);
    var u := w.tasks[id].uri;
    forall v | v in w'.table.states ensures w'.table.states[v].open ==> w.config.policy.openClose {
      if v != u { EntryUntouched(w, w', u, v); ConsiderateEntry(w, v); }
    }
    forall t | 0 <= t < |w'.tasks| ensures NoteFits(w', w'.tasks[t]) {
      if t < |w.tasks| && t != id { OtherNoteFits(w, w', id, t); }
    }
  }

  lemma {:induction false} EntryUntouched(w: World, w': World, u: Uri, v: Uri)
    requires w'.table.states - {u} == w.table.states - {u} && v != u
    ensures Get(w'.table.states, v) == Get(w.table.states, v)
  {
    OthersUnchanged(w.table.states, w'.table.states, u, v);
  }

  lemma {:induction false} OtherNoteFits(w: World, w': World, id: TaskId, t: TaskId)
    requires Considerate(w) && Order(w.tasks, w.queues) && id < |w.tasks| && Turn(w.tasks, id) && t < |w.tasks| <= |w'.tasks| && t != id
    requires w'.tasks[t] == w.tasks[t] && w'.config == w.config
    requires w'.table.states - {w.tasks[id].uri} == w.table.states - {w.tasks[id].uri}
    ensures NoteFits(w', w'.tasks[t])
  {
    hide Order, Turn, Suits;
    ConsiderateNote(w, t);
    if w.tasks[t].uri == w.tasks[id].uri {
      TurnIsExclusive(w, id, t);
    } else {
      EntryUntouched(w, w', w.tasks[id].uri, w.tasks[t].uri);
      assert Get(w'.table.states, w.tasks[t].uri) == Get(w.table.states, w.tasks[t].uri);
    }
  }

  /** The operation whose step an action is. */
  function Mover(a: Action): Option<TaskId>
  {
    match a
    case Start(id, _) => Some(id)
    case Resume(id, _) => Some(id)
    case Confirm(id) => Some(id)
    case Answer(id, _) => Some(id)
    case _ => None
  }

  lemma {:induction false} MoverSteps(w: World, a: Action)
    requires Considerate(w) && Ordered(w) && Enabled(w, a) && Mover(a).Some?
    ensures var id := Mover(a).value;
            && id < |w.tasks| && Turn(w.tasks, id)
            && Progress(w, Next(w, a), id) && GoodStep(w, Next(w, a), id) && PendingMoves(w, Next(w, a), id)
  {
    hide Considerate, Ordered, Order, Turn, Progress, GoodStep, GoodHint, StartStep, ConfirmStep, AnswerStep, MakeRoomStep, OpenStep, PendingTold, PendingMoves;
    OrderedIsOrder(w);
    ConsideratePending(w);
    match a
    case Start(id, hint) =>
      StartHasTurn(w, id);
      StartOrders(w, id, hint);
      StartIsGood(w, id, hint);
      PendingHere(w, id);
      StartPending(w, id, hint);
    case Resume(id, hint) =>
      RunningHasTurn(w, id);
      ResumeOrders(w, id, hint);
      ResumeIsGood(w, id, hint);
      PendingHere(w, id);
      MakeRoomPending(w, id, hint);
      OpenPending(w, id, 1);
    case Confirm(id) =>
      RunningHasTurn(w, id);
      ConfirmOrders(w, id);
      ConfirmIsGood(w, id);
      PendingHere(w, id);
      ConfirmPending(w, id);
    case Answer(id, answered) =>
      RunningHasTurn(w, id);
      AnswerOrders(w, id, answered);
      AnswerIsGood(w, id, answered);
      PendingHere(w, id);
      AnswerPending(w, id, answered);
  }

  lemma {:induction false} ConsideratePending(w: World)
    requires Considerate(w) && w.link != Crashed
    ensures PendingTold(w)
  {
  }

  lemma {:induction false} NextConsiderate(w: World, a: Action)
    requires Considerate(w) && Ordered(w) && Enabled(w, a)
    ensures Considerate(Next(w, a))
  {
    hide Considerate, Ordered, Turn, Progress, GoodStep, GoodHint, PendingMoves;
    if Mover(a).Some? {
      hide Next;
      MoverSteps(w, a);
      GoodStepKeeps(w, Next(w, a), Mover(a).value);
    } else {
      OthersConsiderate(w, a);
    }
  }

  lemma {:induction false} OthersConsiderate(w: World, a: Action)
    requires Considerate(w) && Enabled(w, a) && Mover(a).None?
    ensures Considerate(Next(w, a))
  {
    hide Suits, Table.Valid, PendingTold;
    OthersPending(w, a);
  }

  lemma {:induction false} OthersPending(w: World, a: Action)
    requires (w.link != Crashed ==> PendingTold(w)) && Enabled(w, a) && Mover(a).None?
    ensures Next(w, a).link != Crashed ==> PendingTold(Next(w, a))
  {
    hide Table.Valid;
    var w' := Next(w, a);
    if w.link != Crashed && !a.Stop? && !a.Crash? {
      forall u | u in w'.table.pending ensures exists t :: Telling(w', u, t) {
        var t :| Telling(w, u, t);
        assert Telling(w', u, t);
      }
    }
  }

  lemma {:induction false} RunConsiderate(config: Config, actions: seq<Action>)
    ensures var w := Run(config, actions); w.Some? ==> Considerate(w.value) && Ordered(w.value) && w.value.config == config
  {
    hide Considerate, Ordered, Enabled, Next;
    RunOrders(config, actions);
    if actions == [] {
      FreshConsiderate(config);
    } else {
      var before := actions[..|actions| - 1];
      RunConsiderate(config, before);
      if Run(config, before).Some? && Enabled(Run(config, before).value, actions[|actions| - 1]) {
        NextConsiderate(Run(config, before).value, actions[|actions| - 1]);
      }
    }
  }

  lemma {:induction false} FreshConsiderate(config: Config)
    ensures Considerate(Fresh(config))
  {
  }

  // ---------------------------------------------------------------- over every run

  /** In every run, whatever the server announced, every notification on its way is one it takes, and a
    * change is an edit of a range if and only if the server announced incremental synchronisation. */
  lemma {:induction false} NotificationsSuit(config: Config, actions: seq<Action>, t: TaskId)
    requires Run(config, actions).Some?
    requires t < |Run(config, actions).value.tasks| && Run(config, actions).value.tasks[t].pc.Sending?
    ensures Suits(config.policy, Run(config, actions).value.tasks[t].pc.note)
  {
    hide Run, Suits, Ordered;
    RunConsiderate(config, actions);
    ConsiderateNote(Run(config, actions).value, t);
  }

  /** In every run, the version that is pending about a document is the one it is being told of, and none is
    * pending otherwise. */
  lemma {:induction false} PendingIsTold(config: Config, actions: seq<Action>, u: Uri)
    requires Run(config, actions).Some?
    ensures var w := Run(config, actions).value;
            w.link != Crashed ==> (u in w.table.pending <==> exists t :: Telling(w, u, t))
    ensures var w := Run(config, actions).value; w.link != Crashed ==>
            forall t: TaskId | Telling(w, u, t) :: Get(w.table.pending, u) == PendingOf(w.tasks[t].pc)
  {
    hide Run, Ordered;
    RunConsiderate(config, actions);
  }

  /** In every run, an operation that finds symbols cached for its text ends with them at once, and the server
    * is told nothing. */
  lemma {:induction false} CachedIsAnswered(config: Config, actions: seq<Action>, id: TaskId, hint: Hint)
    requires Run(config, actions).Some? && id < |Run(config, actions).value.tasks| && Enabled(Run(config, actions).value, Start(id, hint))
    ensures var w := Run(config, actions).value;
            var s, task := Get(w.table.states, w.tasks[id].uri), w.tasks[id];
            task.op.Outline? && s.Some? && s.value.text == task.op.text && s.value.languageId == w.config.language(task.uri) && s.value.cached.Some? ==>
              Next(w, Start(id, hint)).tasks[id].pc == Finished(true, Some(s.value.cached.value.value)) && Next(w, Start(id, hint)).server == w.server
  {
    hide Run, Enabled, Next;
    CachedHere(Run(config, actions).value, id, hint);
  }

  lemma {:induction false} CachedHere(w: World, id: TaskId, hint: Hint)
    requires Enabled(w, Start(id, hint))
    ensures var s, task := Get(w.table.states, w.tasks[id].uri), w.tasks[id];
            task.op.Outline? && s.Some? && s.value.text == task.op.text && s.value.languageId == w.config.language(task.uri) && s.value.cached.Some? ==>
              Next(w, Start(id, hint)).tasks[id].pc == Finished(true, Some(s.value.cached.value.value)) && Next(w, Start(id, hint)).server == w.server
  {
    hide GoodHint, SyncStep, Table.Valid, Table.Touch;
    var u := w.tasks[id].uri;
    if u in w.table.states && w.table.states[u].cached.Some? { CacheIsCurrent(w.table, u); }
  }

  lemma {:induction false} CacheIsCurrent(t: Table, uri: Uri)
    requires t.Valid() && uri in t.states && t.states[uri].cached.Some?
    ensures t.states[uri].cached.value.version == t.states[uri].version
  {
  }

  /** The document is being closed by a `Close`: `didClose`, or an eviction. */
  ghost predicate ClosedBy(w: World, a: Action, u: Uri)
  {
    Mover(a).Some? && Mover(a).value < |w.tasks| && w.tasks[Mover(a).value].op.Close? && w.tasks[Mover(a).value].uri == u
  }

  /** In every step of every run, a document that somebody keeps open stays so, but for a close, a stop or a
    * crash. */
  lemma {:induction false} KeptUntilClosed(config: Config, actions: seq<Action>, a: Action, u: Uri)
    requires Run(config, actions).Some? && Enabled(Run(config, actions).value, a)
    requires u in Run(config, actions).value.table.states && Run(config, actions).value.table.states[u].persistent
    ensures var w := Run(config, actions).value;
            var after := Next(w, a).table.states;
            (u in after && after[u].persistent) || ClosedBy(w, a, u) || a.Stop? || a.Crash?
  {
    hide Run, Ordered, Considerate, Suits, Turn, Progress, Enabled;
    RunConsiderate(config, actions);
    var w := Run(config, actions).value;
    if Mover(a).Some? {
      hide Next;
      MoverSteps(w, a);
      var id := Mover(a).value;
      ProgressTouchesOne(w, Next(w, a), id);
      if w.tasks[id].uri != u {
        EntryUntouched(w, Next(w, a), w.tasks[id].uri, u);
        assert Get(Next(w, a).table.states, u) == Get(w.table.states, u);
      }
    }
  }

  /** In every step of every run, an entry that is new or changed has been used now, and is newer than every
    * other; the others keep their place. */
  lemma {:induction false} ChangedIsNewest(config: Config, actions: seq<Action>, a: Action, u: Uri, v: Uri)
    requires Run(config, actions).Some? && Enabled(Run(config, actions).value, a)
    requires var w := Run(config, actions).value;
             var after := Next(w, a).table.states;
             u in after && Get(w.table.states, u) != Some(after[u]) && v in after && v != u
    ensures var w := Run(config, actions).value;
            var after := Next(w, a).table.states;
            after[v].lastUsed < after[u].lastUsed && Get(w.table.states, v) == Some(after[v])
  {
    hide Run, Ordered, Considerate, Suits, Turn, Progress, Enabled;
    RunConsiderate(config, actions);
    var w := Run(config, actions).value;
    if Mover(a).Some? {
      hide Next;
      MoverSteps(w, a);
      var id := Mover(a).value;
      ProgressTouchesOne(w, Next(w, a), id);
      EntryUntouched(w, Next(w, a), w.tasks[id].uri, if w.tasks[id].uri == u then v else u);
      assert Get(Next(w, a).table.states, v) == Some(Next(w, a).table.states[v]);
      Stamped(w.table, v);
    }
  }

  /** In every step of every run, a synchronisation that ends well leaves its text as the one used last, kept
    * open if that was asked for. */
  lemma {:induction false} SynchronizedIsKept(config: Config, actions: seq<Action>, a: Action)
    requires Run(config, actions).Some? && Enabled(Run(config, actions).value, a) && Mover(a).Some?
    requires Mover(a).value < |Run(config, actions).value.tasks| <= |Next(Run(config, actions).value, a).tasks|
    requires var task := Next(Run(config, actions).value, a).tasks[Mover(a).value]; task.pc.Finished? && task.pc.ok
    ensures var w := Run(config, actions).value;
            var task, after := w.tasks[Mover(a).value], Next(w, a).table.states;
            task.op.Sync? ==>
              task.uri in after && after[task.uri].text == task.op.text && after[task.uri].lastUsed == w.table.clock + 1
              && (task.op.persistent ==> after[task.uri].persistent)
  {
    hide Run, Ordered, Considerate, Suits, Turn, Progress, Enabled, Next;
    RunConsiderate(config, actions);
    MoverSteps(Run(config, actions).value, a);
  }
}
