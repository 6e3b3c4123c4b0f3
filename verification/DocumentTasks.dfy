/** One language client with its operations interleaved: src/lsp/documents.ts, lines 36-46, and
  * src/lsp/client.ts, lines 385-407 and 510-608, cut at every `await`.
  *
  * Operations on one URI chain on each other as promises do; operations on different URIs run
  * in any order. A step is what the code does between two awaits. A notification reaches the
  * server when it is sent; the client learns of it in a later step, or the session ends. */
module DocumentTasks {
  import opened DocumentTable
  import opened LspProtocol
  import opened TextEdits
  import opened Utf16
  import opened Wrappers

  type TaskId = nat

  /** The operations that are queued per URI. `Close` is `didClose` and every eviction. */
  datatype Op = Sync(text: Text, persistent: bool) | Outline(text: Text) | Close | CloseTransient

  datatype Pc =
    | Waiting
    | Evicting(child: TaskId)
    | Sending(note: Notification)
    | Requesting(version: nat)
    | Finished(ok: bool, answer: Option<Symbols>)

  /** `after` is the operation whose end this one waits for. */
  datatype Task = Task(uri: Uri, op: Op, after: Option<TaskId>, pc: Pc)

  datatype Link = Up | Stopped | Crashed

  type ValidTable = t: Table | t.Valid() ghost witness Table(map[], map[], 0)

  datatype World = World(
    config: Config, table: ValidTable, queues: map<Uri, TaskId>, tasks: seq<Task>, link: Link, server: Mirror,
    inFlight: map<Uri, TaskId>,   // which operation has an unconfirmed notification about a URI
    breach: bool)                 // some notification was not legal at the server

  /** What a step leaves open: the document an eviction picks and the edit an incremental change keeps. */
  datatype Hint = Hint(victim: Option<Uri>, prefix: nat, suffix: nat)

  datatype Action =
    | Enqueue(uri: Uri, op: Op)
    | Start(id: TaskId, hint: Hint)
    | Resume(id: TaskId, hint: Hint)
    | Confirm(id: TaskId)
    | Answer(id: TaskId, answered: bool)
    | Settle(id: TaskId)
    | Crash
    | Stop
    | Restart

  // ---------------------------------------------------------------- the pieces of a step

  function TextOf(op: Op): Text { match op case Sync(t, _) => t case Outline(t) => t case _ => [] }

  predicate IsSync(op: Op) { op.Sync? || op.Outline? }

  function At(w: World, id: TaskId, pc: Pc): World
    requires id < |w.tasks|
  {
    w.(tasks := w.tasks[id := w.tasks[id].(pc := pc)])
  }

  function Queue(w: World, uri: Uri, op: Op): World
  {
    w.(tasks := w.tasks + [Task(uri, op, Get(w.queues, uri), Waiting)], queues := w.queues[uri := |w.tasks|])
  }

  /** Send: the server applies a legal notification, and an illegal one is a breach. */
  ghost function Send(w: World, id: TaskId, note: Notification): World
    requires id < |w.tasks|
  {
    var sent := At(w, id, Sending(note)).(inFlight := w.inFlight[note.uri := id]);
    match Apply(w.config.policy, w.server, note)
    case Some(m) => sent.(server := m)
    case None => sent.(breach := true)
  }

  /** The document is in the table: `documentSymbols` goes on to its request, others are done. */
  ghost function AfterSync(w: World, id: TaskId): World
    requires id < |w.tasks|
  {
    var task := w.tasks[id];
    if task.op.Outline? && task.uri in w.table.states
    then At(w, id, Requesting(w.table.states[task.uri].version))
    else At(w, id, Finished(true, None))
  }

  ghost function Committed(w: World, id: TaskId, version: nat, open: bool): World
    requires id < |w.tasks|
  {
    var task := w.tasks[id];
    AfterSync(w.(table := w.table.Commit(task.uri, TextOf(task.op), w.config.language(task.uri), version, open, task.op.Sync? && task.op.persistent)), id)
  }

  ghost function OpenStep(w: World, id: TaskId, version: nat): World
    requires id < |w.tasks|
  {
    var task := w.tasks[id];
    if w.config.policy.openClose
    then Send(w.(table := w.table.SetPending(task.uri, version)), id, DidOpen(task.uri, w.config.language(task.uri), version, TextOf(task.op)))
    else Committed(w, id, version, false)
  }

  /** The eviction loop of a document new to the table: queue a close of the victim and wait for
    * it, or open the document when there is room or nothing to evict. */
  ghost function MakeRoomStep(w: World, id: TaskId, hint: Hint): World
    requires id < |w.tasks|
  {
    if w.tasks[id].uri !in w.table.states && |w.table.states| >= w.config.maxDocuments && hint.victim.Some?
    then At(Queue(w, hint.victim.value, Close), id, Evicting(|w.tasks|))
    else OpenStep(w, id, 1)
  }

  /** The hint is what `evictionCandidate` and `incrementalContentChange` would return. */
  ghost predicate GoodHint(w: World, id: TaskId, hint: Hint)
    requires id < |w.tasks|
  {
    var task := w.tasks[id];
    && (hint.victim.Some? ==> w.table.EvictionChoice(w.queues.Keys, task.uri, hint.victim.value))
    && (hint.victim.None? ==> forall u :: !w.table.Evictable(w.queues.Keys, task.uri, u))
    && (task.uri in w.table.states && IsSync(task.op) ==>
          var previous := w.table.states[task.uri].text;
          ValidEdit(previous, TextOf(task.op), hint.prefix, hint.suffix) && KeepsMost(previous, TextOf(task.op), hint.prefix, hint.suffix))
  }

  /** The server already has the text: only the use is recorded. */
  ghost function UseStep(w: World, id: TaskId): World
    requires id < |w.tasks|
  {
    var task := w.tasks[id];
    AfterSync(w.(table := if task.op.Sync? && task.op.persistent then w.table.MarkPersistent(task.uri) else w.table.Touch(task.uri)), id)
  }

  /** The server has another text, or is told of no texts at all. */
  ghost function ChangeStep(w: World, id: TaskId, hint: Hint): World
    requires id < |w.tasks| && GoodHint(w, id, hint) && IsSync(w.tasks[id].op) && w.tasks[id].uri in w.table.states
  {
    var task, kind := w.tasks[id], w.config.policy.change;
    var previous := w.table.states[task.uri];
    if kind != NoSync
    then Send(w.(table := w.table.SetPending(task.uri, previous.version + 1)), id,
              DidChange(task.uri, previous.version + 1, ContentFor(kind, previous.text, TextOf(task.op), hint.prefix, hint.suffix)))
    else Committed(w, id, previous.version + 1, previous.open)
  }

  ghost function SyncStep(w: World, id: TaskId, hint: Hint): World
    requires id < |w.tasks| && GoodHint(w, id, hint) && IsSync(w.tasks[id].op)
  {
    var task := w.tasks[id];
    if task.uri !in w.table.states then MakeRoomStep(w, id, hint)
    else
      var previous := w.table.states[task.uri];
      if previous.text == TextOf(task.op) && previous.languageId == w.config.language(task.uri) && (previous.open || !w.config.policy.openClose)
      then UseStep(w, id)
      else if w.config.policy.openClose && !previous.open then OpenStep(w, id, previous.version + 1)
      else ChangeStep(w, id, hint)
  }

  /** `closeDocument` when it has nothing, or nothing more, to tell the server. */
  ghost function Closed(w: World, id: TaskId): World
    requires id < |w.tasks|
  {
    var task := w.tasks[id];
    At(w.(table := if task.op.CloseTransient? then w.table.MarkClosed(task.uri) else w.table.Remove(task.uri)), id, Finished(true, None))
  }

  /** `documentSymbols` finds a cached answer for the text it was given. */
  ghost predicate CacheHit(w: World, id: TaskId)
    requires id < |w.tasks|
  {
    var task, state := w.tasks[id], Get(w.table.states, w.tasks[id].uri);
    && task.op.Outline? && state.Some?
    && state.value.text == task.op.text && state.value.languageId == w.config.language(task.uri)
    && state.value.cached.Some? && state.value.cached.value.version == state.value.version
  }

  ghost function StartStep(w: World, id: TaskId, hint: Hint): World
    requires id < |w.tasks| && GoodHint(w, id, hint)
  {
    var task := w.tasks[id];
    if CacheHit(w, id) then
      At(w.(table := w.table.Touch(task.uri)), id, Finished(true, Some(w.table.states[task.uri].cached.value.value)))
    else if IsSync(task.op) then SyncStep(w, id, hint)
    else if task.uri !in w.table.states then At(w, id, Finished(true, None))
    else if task.op.CloseTransient? && w.table.states[task.uri].persistent then At(w, id, Finished(true, None))
    else if w.table.states[task.uri].open then Send(w, id, DidClose(task.uri))
    else Closed(w, id)
  }

  /** The send is confirmed: record what the server was told. */
  ghost function ConfirmStep(w: World, id: TaskId): World
    requires id < |w.tasks| && w.tasks[id].pc.Sending?
  {
    var task := w.tasks[id];
    var settled := w.(inFlight := w.inFlight - {task.uri});
    match task.pc.note
    case DidOpen(_, _, version, _) =>
      var done := Committed(settled, id, version, true);
      done.(table := done.table.ClearPending(task.uri, version))
    case DidChange(_, version, _) =>
      var done := Committed(settled, id, version, task.uri in w.table.states && w.table.states[task.uri].open);
      done.(table := done.table.ClearPending(task.uri, version))
    case DidClose(_) => Closed(settled, id)
  }

  ghost function AnswerStep(w: World, id: TaskId, answered: bool): World
    requires id < |w.tasks| && w.tasks[id].pc.Requesting?
  {
    var task := w.tasks[id];
    if answered && task.uri in w.server then
      var value := w.config.outline(w.server[task.uri].text, w.server[task.uri].languageId);
      At(w.(table := w.table.CacheSymbols(task.uri, task.pc.version, value)), id, Finished(true, Some(value)))
    else At(w, id, Finished(true, None))
  }

  // ---------------------------------------------------------------- runs

  /** After a crash the operations in flight end without an answer. */
  function Ended(tasks: seq<Task>): (ended: seq<Task>)
    ensures |ended| == |tasks|
    ensures forall t | 0 <= t < |tasks| :: ended[t] == if tasks[t].pc.Finished? then tasks[t] else tasks[t].(pc := Finished(false, None))
  {
    seq(|tasks|, t requires 0 <= t < |tasks| => if tasks[t].pc.Finished? then tasks[t] else tasks[t].(pc := Finished(false, None)))
  }

  ghost predicate AllFinished(w: World) { forall t | 0 <= t < |w.tasks| :: w.tasks[t].pc.Finished? }

  ghost predicate Enabled(w: World, a: Action)
  {
    match a
    case Enqueue(_, _) => w.link == Up
    case Start(id, hint) =>
      && w.link == Up && id < |w.tasks| && w.tasks[id].pc.Waiting?
      && (w.tasks[id].after.Some? ==> w.tasks[id].after.value < |w.tasks| && w.tasks[w.tasks[id].after.value].pc.Finished?)
      && GoodHint(w, id, hint)
    case Resume(id, hint) =>
      && w.link == Up && id < |w.tasks| && w.tasks[id].pc.Evicting?
      && w.tasks[id].pc.child < |w.tasks| && w.tasks[w.tasks[id].pc.child].pc.Finished?
      && GoodHint(w, id, hint)
    case Confirm(id) => w.link == Up && id < |w.tasks| && w.tasks[id].pc.Sending?
    case Answer(id, _) => w.link == Up && id < |w.tasks| && w.tasks[id].pc.Requesting?
    case Settle(id) =>
      && w.link == Up && id < |w.tasks| && w.tasks[id].pc.Finished?
      && w.tasks[id].uri in w.queues && w.queues[w.tasks[id].uri] == id
    case Crash => w.link == Up
    case Stop => w.link == Crashed || (w.link == Up && AllFinished(w))
    case Restart => w.link == Stopped
  }

  ghost function Next(w: World, a: Action): World
    requires Enabled(w, a)
  {
    match a
    case Enqueue(uri, op) => Queue(w, uri, op)
    case Start(id, hint) => StartStep(w, id, hint)
    case Resume(id, hint) =>
      if w.tasks[w.tasks[id].pc.child].pc.ok then MakeRoomStep(w, id, hint) else OpenStep(w, id, 1)
    case Confirm(id) => ConfirmStep(w, id)
    case Answer(id, answered) => AnswerStep(w, id, answered)
    case Settle(id) => w.(queues := w.queues - {w.tasks[id].uri})
    case Crash => w.(link := Crashed, table := w.table.Clear(), queues := map[], server := map[], inFlight := map[])
    case Stop => w.(link := Stopped, tasks := Ended(w.tasks), table := w.table.Clear(), queues := map[], server := map[], inFlight := map[])
    case Restart => w.(link := Up)
  }

  ghost function Fresh(config: Config): World
  {
    World(config, Table(map[], map[], 0), map[], [], Up, map[], map[], false)
  }

  /** The world a list of actions leads to, if every one of them can be taken. */
  ghost function Run(config: Config, actions: seq<Action>): Option<World>
  {
    if actions == [] then Some(Fresh(config))
    else match Run(config, actions[..|actions| - 1])
      case None => None
      case Some(w) => if Enabled(w, actions[|actions| - 1]) then Some(Next(w, actions[|actions| - 1])) else None
  }
}
