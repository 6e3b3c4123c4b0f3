/** What follows an operation in its caller: src/lsp/client.ts, lines 214-227, 385-407 and 575-593. Once
  * its own work on the queue is done, `didOpenOrChange` trims the table, and `documentSymbols` first
  * closes a transient document and then trims. Both queue further operations, so every step here is a
  * step of `DocumentTasks` or none at all. */
module DocumentTrims {
  import opened DocumentGuarantees
  import opened DocumentOrder
  import opened DocumentTable
  import opened DocumentTasks
  import opened LspProtocol
  import opened Wrappers

  /** What is left of a caller's operation. */
  datatype Rest =
    | TrimNext                      // of `didOpenOrChange`, when its synchronisation has ended
    | CloseNext                     // of `documentSymbols`, when its answer is there
    | Closing(child: TaskId)
    | Trimming(child: TaskId)
    | Done

  datatype Client = Client(w: World, rests: map<TaskId, Rest>)

  datatype Move = Base(a: Action) | Follow(id: TaskId, victim: Option<Uri>)

  /** An operation has ended and its queue entry is gone: whoever awaits it goes on. */
  ghost predicate Settled(w: World, id: TaskId)
  {
    && id < |w.tasks| && w.tasks[id].pc.Finished?
    && !(w.tasks[id].uri in w.queues && w.queues[w.tasks[id].uri] == id)
  }

  /** The victim is what `evictionCandidate` would return. */
  ghost predicate GoodVictim(w: World, exclude: Uri, victim: Option<Uri>)
  {
    && (victim.Some? ==> w.table.EvictionChoice(w.queues.Keys, exclude, victim.value))
    && (victim.None? ==> forall u :: !w.table.Evictable(w.queues.Keys, exclude, u))
  }

  /** The loop of `trimDocuments`: queue another eviction, or end. */
  ghost function TrimStep(c: Client, id: TaskId, victim: Option<Uri>): Client
  {
    if |c.w.table.states| > c.w.config.maxDocuments && victim.Some?
    then Client(Queue(c.w, victim.value, Close), c.rests[id := Trimming(|c.w.tasks|)])
    else c.(rests := c.rests[id := Done])
  }

  /** The rest of operation `id` awaits nothing any more. */
  ghost predicate Ready(c: Client, id: TaskId)
  {
    && id in c.rests && id < |c.w.tasks|
    && match c.rests[id]
       case TrimNext => Settled(c.w, id)
       case CloseNext => Settled(c.w, id)
       case Closing(child) => Settled(c.w, child)
       case Trimming(child) => Settled(c.w, child)
       case Done => false
  }

  /** `documentSymbols` alone closes transiently, and a client stops when nothing is left to do. After a
    * crash that is when its callers have given up. */
  ghost predicate Allowed(c: Client, m: Move)
  {
    match m
    case Base(a) =>
      && Enabled(c.w, a) && (a.Enqueue? ==> !a.op.CloseTransient?)
      && (a.Stop? ==> c.w.link == Crashed || forall id | id in c.rests :: c.rests[id].Done?)
    case Follow(id, victim) => c.w.link == Up && Ready(c, id) && GoodVictim(c.w, c.w.tasks[id].uri, victim)
  }

  function AllDone(rests: map<TaskId, Rest>): map<TaskId, Rest> { map id | id in rests :: Done }

  function RestsAfter(c: Client, a: Action): map<TaskId, Rest>
  {
    if a.Enqueue? && IsSync(a.op) then c.rests[|c.w.tasks| := if a.op.Sync? then TrimNext else CloseNext]
    else if a.Stop? then AllDone(c.rests) else c.rests
  }

  ghost function After(c: Client, m: Move): Client
    requires Allowed(c, m)
  {
    match m
    case Base(a) => Client(Next(c.w, a), RestsAfter(c, a))
    case Follow(id, victim) =>
      if c.rests[id].CloseNext?
      then Client(Queue(c.w, c.w.tasks[id].uri, CloseTransient), c.rests[id := Closing(|c.w.tasks|)])
      else if c.rests[id].Trimming? && !c.w.tasks[c.rests[id].child].pc.ok then c.(rests := c.rests[id := Done])
      else TrimStep(c, id, victim)
  }

  ghost function Session(config: Config, moves: seq<Move>): Option<Client>
  {
    if moves == [] then Some(Client(Fresh(config), map[]))
    else match Session(config, moves[..|moves| - 1])
      case None => None
      case Some(c) => if Allowed(c, moves[|moves| - 1]) then Some(After(c, moves[|moves| - 1])) else None
  }

  /** The steps of the queues in a session are a run: all that holds of runs holds here. */
  lemma {:induction false} SessionIsRun(config: Config, moves: seq<Move>) returns (actions: seq<Action>)
    requires Session(config, moves).Some?
    ensures Run(config, actions) == Some(Session(config, moves).value.w)
  {
    hide Enabled, Next;
    if moves == [] {
      return [];
    }
    var n := |moves| - 1;
    var c, m := Session(config, moves[..n]).value, moves[n];
    actions := SessionIsRun(config, moves[..n]);
    var action := BaseAction(c, m);
    if action.Some? {
      actions := actions + [action.value];
      assert actions[..|actions| - 1] + [action.value] == actions;
    }
  }

  lemma {:induction false} BaseAction(c: Client, m: Move) returns (action: Option<Action>)
    requires Allowed(c, m)
    ensures if action.Some? then Enabled(c.w, action.value) && After(c, m).w == Next(c.w, action.value) else After(c, m).w == c.w
  {
    match m
    case Base(a) => return Some(a);
    case Follow(id, victim) =>
      if c.rests[id].CloseNext? { return Some(Enqueue(c.w.tasks[id].uri, CloseTransient)); }
      if c.rests[id].Trimming? && !c.w.tasks[c.rests[id].child].pc.ok { return None; }
      if |c.w.table.states| > c.w.config.maxDocuments && victim.Some? { return Some(Enqueue(victim.value, Close)); }
      return None;
  }

  /** A rest that goes on queues an operation and waits for it, or is done. */
  lemma {:induction false} RestGoesOn(c: Client, id: TaskId, victim: Option<Uri>)
    requires Allowed(c, Follow(id, victim))
    ensures var after := After(c, Follow(id, victim));
            && after.rests.Keys == c.rests.Keys
            && ((after.rests[id].Done? && after.w == c.w)
                || (|after.w.tasks| == |c.w.tasks| + 1 && after.rests[id] in {Closing(|c.w.tasks|), Trimming(|c.w.tasks|)}))
  {
  }

  // ---------------------------------------------------------------- what a step leaves alone

  /** Operations keep what they are, ended ones stay ended, and a queue only ever gets a new last one. */
  ghost predicate Extends(w: World, w': World)
  {
    && |w.tasks| <= |w'.tasks|
    && (forall t | 0 <= t < |w.tasks| :: w'.tasks[t].uri == w.tasks[t].uri && w'.tasks[t].op == w.tasks[t].op && (w.tasks[t].pc.Finished? ==> w'.tasks[t].pc.Finished?))
    && (forall u | u in w'.queues :: w'.queues[u] >= |w.tasks| || (u in w.queues && w'.queues[u] == w.queues[u]))
  }

  lemma {:induction false} SettledStays(w: World, w': World, id: TaskId)
    requires Extends(w, w') && Settled(w, id)
    ensures Settled(w', id)
  {
  }

  lemma {:induction false} ProgressExtends(w: World, w': World, id: TaskId)
    requires Ordered(w) && w.link != Crashed && id < |w.tasks| && !w.tasks[id].pc.Finished? && Progress(w, w', id)
    ensures Extends(w, w')
  {
    hide Ordered, Shape;
  }

  // ---------------------------------------------------------------- the invariant

  /** A close is on its way: `didClose`, or an eviction. */
  ghost predicate ToClose(w: World, u: Uri)
  {
    exists t :: 0 <= t < |w.tasks| && w.tasks[t].uri == u && w.tasks[t].op.Close? && !w.tasks[t].pc.Finished?
  }

  /** The documents that stay. */
  ghost function Staying(w: World): set<Uri> { set u | u in w.table.states && !ToClose(w, u) }

  /** Somebody has yet to trim. */
  ghost predicate Unfinished(c: Client) { exists id :: id in c.rests && !c.rests[id].Done? }

  ghost predicate Initial(rest: Rest) { rest.TrimNext? || rest.CloseNext? }

  /** Every operation that can add a document has a rest, which begins only after it. */
  ghost predicate Followed(c: Client)
  {
    && (forall t | 0 <= t < |c.w.tasks| && IsSync(c.w.tasks[t].op) :: t in c.rests && (Initial(c.rests[t]) || Settled(c.w, t)))
    && (forall t | 0 <= t < |c.w.tasks| && c.w.tasks[t].op.CloseTransient? :: Settled(c.w, t) || exists p :: p in c.rests && c.rests[p] == Closing(t))
  }

  /** After a close that was the last operation on a document, it is gone. */
  ghost predicate LastClosed(w: World)
  {
    forall u | u in w.queues && w.queues[u] < |w.tasks| && w.tasks[w.queues[u]].op.Close? && w.tasks[w.queues[u]].pc.Finished? :: u !in w.table.states
  }

  /** Trimming waits for closes, and one that has ended has ended well, since a failure ends the session. */
  ghost predicate ClosedWell(c: Client)
  {
    && (forall id | id in c.rests :: id < |c.w.tasks| && IsSync(c.w.tasks[id].op))
    && (forall id | id in c.rests && c.rests[id].Closing? :: c.rests[id].child < |c.w.tasks|)
    && (forall id | id in c.rests && c.rests[id].Trimming? ::
          c.rests[id].child < |c.w.tasks|
          && var child := c.w.tasks[c.rests[id].child]; child.op.Close? && (child.pc.Finished? ==> child.pc.ok))
  }

  ghost predicate Bounded(c: Client)
  {
    Unfinished(c) || |Staying(c.w)| <= c.w.config.maxDocuments
  }

  ghost predicate HaveRests(c: Client)
  {
    forall t | 0 <= t < |c.w.tasks| && IsSync(c.w.tasks[t].op) :: t in c.rests
  }

  ghost predicate TrimInv(c: Client)
  {
    Ordered(c.w) && ClosedWell(c) && if c.w.link == Crashed then HaveRests(c) else Followed(c) && LastClosed(c.w) && Bounded(c)
  }

  // ---------------------------------------------------------------- steps of synchronising operations

  /** While an operation that can add a document is unfinished, so is its rest. */
  lemma {:induction false} SyncIsFollowed(c: Client, id: TaskId)
    requires Followed(c) && id < |c.w.tasks| && IsSync(c.w.tasks[id].op) && !Settled(c.w, id)
    ensures Unfinished(c)
  {
    assert id in c.rests && !c.rests[id].Done?;
  }

  lemma {:induction false} FollowedStays(c: Client, w': World)
    requires Followed(c) && Extends(c.w, w')
    requires forall t | |c.w.tasks| <= t < |w'.tasks| :: w'.tasks[t].op.Close?
    ensures Followed(c.(w := w'))
  {
    hide Extends, Settled;
    var c' := c.(w := w');
    forall t | 0 <= t < |w'.tasks| && IsSync(w'.tasks[t].op) ensures t in c.rests && (Initial(c.rests[t]) || Settled(w', t)) {
      FollowedTask(c, w', t);
    }
    forall t | 0 <= t < |w'.tasks| && w'.tasks[t].op.CloseTransient?
      ensures Settled(w', t) || exists p :: p in c.rests && c.rests[p] == Closing(t)
    {
      FollowedTask(c, w', t);
    }
  }

  lemma {:induction false} FollowedTask(c: Client, w': World, t: TaskId)
    requires Followed(c) && Extends(c.w, w') && t < |w'.tasks|
    requires forall t | |c.w.tasks| <= t < |w'.tasks| :: w'.tasks[t].op.Close?
    ensures IsSync(w'.tasks[t].op) ==> t in c.rests && (Initial(c.rests[t]) || Settled(w', t))
    ensures w'.tasks[t].op.CloseTransient? ==> Settled(w', t) || exists p :: p in c.rests && c.rests[p] == Closing(t)
  {
    hide Settled;
    if t < |c.w.tasks| && Settled(c.w, t) { SettledStays(c.w, w', t); }
  }

  lemma {:induction false} UnfinishedLast(w: World, id: TaskId)
    requires Ordered(w) && w.link != Crashed && id < |w.tasks| && !w.tasks[id].pc.Finished?
    ensures w.tasks[id].uri in w.queues && w.queues[w.tasks[id].uri] < |w.tasks|
    ensures !w.tasks[w.queues[w.tasks[id].uri]].pc.Finished?
  {
    hide Chained, Shape;
  }

  lemma {:induction false} SyncKeepsLastClosed(w: World, w': World, id: TaskId)
    requires Ordered(w) && w.link != Crashed && id < |w.tasks| && !w.tasks[id].pc.Finished? && IsSync(w.tasks[id].op)
    requires Progress(w, w', id) && LastClosed(w)
    ensures LastClosed(w')
  {
    hide Ordered, Shape;
    var u := w.tasks[id].uri;
    UnfinishedLast(w, id);
    if Moves(w, w', id) {
      forall v | v in w'.queues && w'.queues[v] < |w'.tasks| && w'.tasks[w'.queues[v]].op.Close? && w'.tasks[w'.queues[v]].pc.Finished?
        ensures v !in w'.table.states
      {
        OthersUnchanged(w.table.states, w'.table.states, u, v);
        assert Get(w.table.states, v) == Get(w'.table.states, v);
      }
    } else {
      var victim: Uri :| victim !in w.queues && w' == At(Queue(w, victim, Close), id, Evicting(|w.tasks|));
      QueuedLastClosed(w, victim, Close);
      AtLastClosed(Queue(w, victim, Close), id, Evicting(|w.tasks|));
    }
  }

  lemma {:induction false} AtLastClosed(w: World, id: TaskId, pc: Pc)
    requires LastClosed(w) && id < |w.tasks| && !pc.Finished?
    ensures LastClosed(At(w, id, pc))
  {
  }

  lemma {:induction false} QueuedLastClosed(w: World, uri: Uri, op: Op)
    requires LastClosed(w)
    ensures LastClosed(Queue(w, uri, op))
  {
  }

  // ---------------------------------------------------------------- steps of closing operations

  /** A close removes its document, or had nothing to remove; a transient one adds nothing. */
  ghost predicate Closes(w: World, w': World, id: TaskId)
    requires id < |w.tasks|
  {
    && Moves(w, w', id) && w'.table.states.Keys <= w.table.states.Keys
    && (w.tasks[id].op.Close? && w'.tasks[id].pc.Finished? ==> w.tasks[id].uri !in w'.table.states && w'.tasks[id].pc.ok)
  }

  lemma {:induction false} ClosedCloses(w: World, w1: World, id: TaskId)
    requires id < |w.tasks| && Touched(w, w1, id) && w1.table.states == w.table.states
    ensures Closes(w, Closed(w1, id), id)
  {
    hide Moves, Table.Valid;
    ClosedMoves(w, w1, id);
  }

  lemma {:induction false} StartCloses(w: World, id: TaskId, hint: Hint)
    requires Enabled(w, Start(id, hint)) && !IsSync(w.tasks[id].op)
    ensures Closes(w, StartStep(w, id, hint), id)
  {
    hide GoodHint, SyncStep, Send, Closed, Table.Valid;
    ClosedCloses(w, w, id);
    var u := w.tasks[id].uri;
    if u in w.table.states && !(w.tasks[id].op.CloseTransient? && w.table.states[u].persistent) && w.table.states[u].open {
      SendMoves(w, w, id, DidClose(u));
      SendKeepsStates(w, id, DidClose(u));
    }
  }

  lemma {:induction false} SendKeepsStates(w: World, id: TaskId, note: Notification)
    requires id < |w.tasks|
    ensures Send(w, id, note).table == w.table && Send(w, id, note).tasks[id].pc == Sending(note)
  {
    hide Apply;
  }

  lemma {:induction false} ConfirmCloses(w: World, id: TaskId)
    requires Ordered(w) && Enabled(w, Confirm(id)) && !IsSync(w.tasks[id].op)
    ensures Closes(w, ConfirmStep(w, id), id)
  {
    hide Ordered, Closed, Committed, Table.Valid;
    OrderedShape(w, id);
    ClosedCloses(w, w.(inFlight := w.inFlight - {w.tasks[id].uri}), id);
  }

  lemma {:induction false} ClosesKeepLastClosed(w: World, w': World, id: TaskId)
    requires Ordered(w) && w.link != Crashed && id < |w.tasks| && !w.tasks[id].pc.Finished? && Closes(w, w', id) && LastClosed(w)
    ensures LastClosed(w')
  {
    hide Ordered, Shape;
    var u := w.tasks[id].uri;
    UnfinishedLast(w, id);
    forall v | v in w'.queues && w'.queues[v] < |w'.tasks| && w'.tasks[w'.queues[v]].op.Close? && w'.tasks[w'.queues[v]].pc.Finished?
      ensures v !in w'.table.states
    {
      QueueNames(w, v);
      if v != u {
        OthersUnchanged(w.table.states, w'.table.states, u, v);
        assert Get(w.table.states, v) == Get(w'.table.states, v);
      } else {
        LastHasMoved(w, w', id);
      }
    }
  }

  lemma {:induction false} QueueNames(w: World, v: Uri)
    requires Ordered(w) && w.link != Crashed && v in w.queues
    ensures w.queues[v] < |w.tasks| && w.tasks[w.queues[v]].uri == v
  {
    hide Chained, OneAtATime, Shape;
  }

  lemma {:induction false} LastHasMoved(w: World, w': World, id: TaskId)
    requires Ordered(w) && w.link != Crashed && id < |w.tasks| && !w.tasks[id].pc.Finished? && Moves(w, w', id)
    requires w.tasks[id].uri in w.queues && w.queues[w.tasks[id].uri] < |w'.tasks| && w'.tasks[w.queues[w.tasks[id].uri]].pc.Finished?
    ensures w.queues[w.tasks[id].uri] == id
  {
    hide Ordered, Shape;
    UnfinishedLast(w, id);
  }

  lemma {:induction false} ToCloseOrGone(w: World, w': World, id: TaskId, u: Uri)
    requires id < |w.tasks| && !w.tasks[id].pc.Finished? && Closes(w, w', id) && ToClose(w, u)
    ensures ToClose(w', u) || u !in w'.table.states
  {
    hide Shape;
    var t :| 0 <= t < |w.tasks| && w.tasks[t].uri == u && w.tasks[t].op.Close? && !w.tasks[t].pc.Finished?;
    if t != id { assert w'.tasks[t] == w.tasks[t]; }
  }

  lemma {:induction false} ToCloseStill(w: World, w': World, u: Uri)
    requires |w.tasks| <= |w'.tasks| && w'.tasks[..|w.tasks|] == w.tasks && ToClose(w, u)
    ensures ToClose(w', u)
  {
    var t :| 0 <= t < |w.tasks| && w.tasks[t].uri == u && w.tasks[t].op.Close? && !w.tasks[t].pc.Finished?;
    assert w'.tasks[..|w.tasks|][t] == w'.tasks[t];
  }

  lemma {:induction false} ClosesKeepStaying(w: World, w': World, id: TaskId)
    requires id < |w.tasks| && !IsSync(w.tasks[id].op) && !w.tasks[id].pc.Finished? && Closes(w, w', id)
    ensures Staying(w') <= Staying(w)
  {
    hide ToClose, Moves;
    forall u | u in Staying(w') ensures u in Staying(w) {
      if ToClose(w, u) { ToCloseOrGone(w, w', id, u); }
    }
  }

  // ---------------------------------------------------------------- the other steps

  /** The documents and the closes under way are as they were, or there are more closes. */
  lemma {:induction false} StayingShrinks(w: World, w': World)
    requires w'.table.states.Keys <= w.table.states.Keys && |w.tasks| <= |w'.tasks| && w'.tasks[..|w.tasks|] == w.tasks
    ensures Staying(w') <= Staying(w)
  {
    hide ToClose;
    forall u | u in Staying(w') ensures u in Staying(w) {
      if ToClose(w, u) { ToCloseStill(w, w', u); }
    }
  }

  lemma {:induction false} SmallerSet<T>(a: set<T>, b: set<T>)
    requires a <= b
    ensures |a| <= |b|
  {
    assert b == a + (b - a);
  }

  lemma {:induction false} BoundedStays(c: Client, w': World)
    requires Bounded(c) && (Unfinished(c) || Staying(w') <= Staying(c.w)) && w'.config == c.w.config
    ensures Bounded(c.(w := w'))
  {
    hide Staying;
    if !Unfinished(c) { SmallerSet(Staying(w'), Staying(c.w)); }
  }

  lemma {:induction false} WellStays(c: Client, w': World)
    requires ClosedWell(c) && |c.w.tasks| <= |w'.tasks|
    requires forall t | 0 <= t < |c.w.tasks| :: w'.tasks[t].op == c.w.tasks[t].op
    requires forall t | 0 <= t < |w'.tasks| && w'.tasks[t].op.Close? && w'.tasks[t].pc.Finished? ::
      w'.tasks[t].pc.ok || (t < |c.w.tasks| && w'.tasks[t].pc == c.w.tasks[t].pc)
    ensures ClosedWell(c.(w := w'))
  {
  }

  // ---------------------------------------------------------------- the end of a trim

  /** With nothing to evict and nobody left to trim, every document but one is about to be closed. */
  lemma {:induction false} OthersLeave(c: Client, id: TaskId, v: Uri)
    requires Ordered(c.w) && c.w.link != Crashed && Followed(c) && LastClosed(c.w) && Ready(c, id)
    requires !Unfinished(c.(rests := c.rests[id := Done])) && v in c.w.table.states && v != c.w.tasks[id].uri && v in c.w.queues
    ensures ToClose(c.w, v)
  {
    hide Chained, OneAtATime, Shape;
    var q, rests := c.w.queues[v], c.rests[id := Done];
    assert q < |c.w.tasks| && c.w.tasks[q].uri == v && !Settled(c.w, q);
    if IsSync(c.w.tasks[q].op) {
      SyncPending(c, id, q);
    } else if c.w.tasks[q].op.CloseTransient? {
      TransientPending(c, id, q);
    }
  }

  lemma {:induction false} SyncPending(c: Client, id: TaskId, q: TaskId)
    requires Followed(c) && q < |c.w.tasks| && IsSync(c.w.tasks[q].op) && !Settled(c.w, q) && q != id
    ensures Unfinished(c.(rests := c.rests[id := Done]))
  {
    var rests := c.rests[id := Done];
    assert q in rests && !rests[q].Done?;
  }

  lemma {:induction false} TransientPending(c: Client, id: TaskId, q: TaskId)
    requires Followed(c) && q < |c.w.tasks| && c.w.tasks[q].op.CloseTransient? && !Settled(c.w, q) && Ready(c, id)
    ensures Unfinished(c.(rests := c.rests[id := Done]))
  {
    var rests := c.rests[id := Done];
    var p :| p in c.rests && c.rests[p] == Closing(q);
    assert p in rests && rests[p] == c.rests[p];
  }

  lemma {:induction false} TrimEnds(c: Client, id: TaskId, victim: Option<Uri>)
    requires Ordered(c.w) && c.w.link != Crashed && Followed(c) && LastClosed(c.w) && Ready(c, id) && c.w.config.maxDocuments >= 1
    requires id < |c.w.tasks| && GoodVictim(c.w, c.w.tasks[id].uri, victim) && (|c.w.table.states| <= c.w.config.maxDocuments || victim.None?)
    ensures Bounded(c.(rests := c.rests[id := Done]))
  {
    hide Followed, LastClosed, Ready, Unfinished, Table.Valid, ToClose, Ordered;
    var c' := c.(rests := c.rests[id := Done]);
    if !Unfinished(c') {
      if |c.w.table.states| <= c.w.config.maxDocuments {
        assert Staying(c.w) <= c.w.table.states.Keys;
        SmallerSet(Staying(c.w), c.w.table.states.Keys);
      } else {
        var u := c.w.tasks[id].uri;
        forall v | v in Staying(c.w) ensures v == u {
          if v != u {
            assert !c.w.table.Evictable(c.w.queues.Keys, u, v);
            OthersLeave(c, id, v);
          }
        }
        assert Staying(c.w) <= {u};
        SmallerSet(Staying(c.w), {u});
      }
    }
  }

  lemma {:induction false} QueueExtends(w: World, uri: Uri, op: Op)
    ensures Extends(w, Queue(w, uri, op)) && Queue(w, uri, op).tasks[..|w.tasks|] == w.tasks
  {
  }

  /** A rest goes on to wait for an operation it queues, or is done: the others are followed as before. */
  lemma {:induction false} FollowedOn(c: Client, w': World, id: TaskId, rest: Rest)
    requires Followed(c) && Extends(c.w, w') && Ready(c, id) && !Initial(rest) && id < |c.w.tasks|
    requires (Initial(c.rests[id]) ==> Settled(c.w, id))
    requires IsSync(c.w.tasks[id].op)
    requires forall t | |c.w.tasks| <= t < |w'.tasks| :: w'.tasks[t].op.Close? || (w'.tasks[t].op.CloseTransient? && rest == Closing(t))
    ensures Followed(Client(w', c.rests[id := rest]))
  {
    hide Extends, Settled;
    var rests := c.rests[id := rest];
    forall t | 0 <= t < |w'.tasks|
      ensures IsSync(w'.tasks[t].op) ==> t in rests && (Initial(rests[t]) || Settled(w', t))
      ensures w'.tasks[t].op.CloseTransient? ==> Settled(w', t) || exists p :: p in rests && rests[p] == Closing(t)
    {
      FollowedOnTask(c, w', id, rest, t);
    }
  }

  lemma {:induction false} FollowedOnTask(c: Client, w': World, id: TaskId, rest: Rest, t: TaskId)
    requires Followed(c) && Extends(c.w, w') && Ready(c, id) && !Initial(rest) && t < |w'.tasks| && id < |c.w.tasks|
    requires (Initial(c.rests[id]) ==> Settled(c.w, id))
    requires IsSync(c.w.tasks[id].op)
    requires forall t | |c.w.tasks| <= t < |w'.tasks| :: w'.tasks[t].op.Close? || (w'.tasks[t].op.CloseTransient? && rest == Closing(t))
    ensures var rests := c.rests[id := rest];
            && (IsSync(w'.tasks[t].op) ==> t in rests && (Initial(rests[t]) || Settled(w', t)))
            && (w'.tasks[t].op.CloseTransient? ==> Settled(w', t) || exists p :: p in rests && rests[p] == Closing(t))
  {
    hide Settled;
    var rests := c.rests[id := rest];
    if t >= |c.w.tasks| {
      assert id in rests && rests[id] == rest;
    } else if Settled(c.w, t) {
      SettledStays(c.w, w', t);
    } else if c.w.tasks[t].op.CloseTransient? {
      var p :| p in c.rests && c.rests[p] == Closing(t);
      assert p != id && p in rests && rests[p] == Closing(t);
    }
  }

  // ---------------------------------------------------------------- every step of a session

  lemma {:induction false} SyncStepTrims(c: Client, w': World, id: TaskId)
    requires TrimInv(c) && c.w.link != Crashed && id < |c.w.tasks| && !c.w.tasks[id].pc.Finished? && IsSync(c.w.tasks[id].op)
    requires Progress(c.w, w', id) && Ordered(w') && w'.config == c.w.config
    ensures TrimInv(c.(w := w'))
  {
    hide Ordered, Shape, Followed, LastClosed, Unfinished, Progress, Staying;
    ProgressExtends(c.w, w', id);
    SyncIsFollowed(c, id);
    ProgressTasks(c.w, w', id);
    FollowedStays(c, w');
    SyncKeepsLastClosed(c.w, w', id);
    WellStays(c, w');
    BoundedStays(c, w');
  }

  lemma {:induction false} ProgressTasks(w: World, w': World, id: TaskId)
    requires id < |w.tasks| && !w.tasks[id].pc.Finished? && IsSync(w.tasks[id].op) && Progress(w, w', id)
    ensures w'.link == w.link && |w.tasks| <= |w'.tasks|
    ensures forall t | |w.tasks| <= t < |w'.tasks| :: w'.tasks[t].op.Close? && !w'.tasks[t].pc.Finished?
    ensures forall t | 0 <= t < |w.tasks| :: w'.tasks[t].op == w.tasks[t].op && (t != id ==> w'.tasks[t] == w.tasks[t])
  {
    hide Shape;
  }

  lemma {:induction false} CloseStepTrims(c: Client, w': World, id: TaskId)
    requires TrimInv(c) && c.w.link != Crashed && id < |c.w.tasks| && !c.w.tasks[id].pc.Finished? && !IsSync(c.w.tasks[id].op)
    requires Closes(c.w, w', id) && Ordered(w')
    ensures TrimInv(c.(w := w'))
  {
    hide Ordered, Shape, Followed, LastClosed, Unfinished, Staying;
    ProgressExtends(c.w, w', id);
    FollowedStays(c, w');
    ClosesKeepLastClosed(c.w, w', id);
    ClosesKeepStaying(c.w, w', id);
    WellStays(c, w');
    BoundedStays(c, w');
  }

  lemma {:induction false} StartTrims(c: Client, id: TaskId, hint: Hint)
    requires TrimInv(c) && Enabled(c.w, Start(id, hint))
    ensures TrimInv(c.(w := StartStep(c.w, id, hint)))
  {
    hide TrimInv, Ordered, Progress, Closes, StartStep, GoodHint;
    TrimIsOrdered(c);
    StartOrders(c.w, id, hint);
    if IsSync(c.w.tasks[id].op) {
      SyncStepTrims(c, StartStep(c.w, id, hint), id);
    } else {
      StartCloses(c.w, id, hint);
      CloseStepTrims(c, StartStep(c.w, id, hint), id);
    }
  }

  lemma {:induction false} TrimIsOrdered(c: Client)
    requires TrimInv(c)
    ensures Ordered(c.w)
  {
  }

  lemma {:induction false} ConfirmTrims(c: Client, id: TaskId)
    requires TrimInv(c) && Enabled(c.w, Confirm(id))
    ensures TrimInv(c.(w := ConfirmStep(c.w, id)))
  {
    hide TrimInv, Ordered, Progress, Closes, ConfirmStep;
    TrimIsOrdered(c);
    ConfirmOrders(c.w, id);
    if IsSync(c.w.tasks[id].op) {
      SyncStepTrims(c, ConfirmStep(c.w, id), id);
    } else {
      ConfirmCloses(c.w, id);
      CloseStepTrims(c, ConfirmStep(c.w, id), id);
    }
  }

  lemma {:induction false} ResumeTrims(c: Client, id: TaskId, hint: Hint)
    requires TrimInv(c) && Enabled(c.w, Resume(id, hint))
    ensures TrimInv(c.(w := Next(c.w, Resume(id, hint))))
  {
    hide TrimInv, Ordered, Progress, MakeRoomStep, OpenStep, GoodHint;
    TrimIsOrdered(c);
    OrderedShape(c.w, id);
    ResumeOrders(c.w, id, hint);
    SyncStepTrims(c, Next(c.w, Resume(id, hint)), id);
  }

  lemma {:induction false} AnswerTrims(c: Client, id: TaskId, answered: bool)
    requires TrimInv(c) && Enabled(c.w, Answer(id, answered))
    ensures TrimInv(c.(w := AnswerStep(c.w, id, answered)))
  {
    hide TrimInv, Ordered, Progress, AnswerStep;
    TrimIsOrdered(c);
    OrderedShape(c.w, id);
    AnswerOrders(c.w, id, answered);
    SyncStepTrims(c, AnswerStep(c.w, id, answered), id);
  }

  lemma {:induction false} EnqueueTrims(c: Client, uri: Uri, op: Op)
    requires TrimInv(c) && c.w.link != Crashed && !op.CloseTransient?
    ensures TrimInv(Client(Queue(c.w, uri, op), if IsSync(op) then c.rests[|c.w.tasks| := if op.Sync? then TrimNext else CloseNext] else c.rests))
  {
    hide TrimInv, Queue;
    if op.Close? { EnqueueCloseTrims(c, uri); } else { EnqueueSyncTrims(c, uri, op); }
  }

  lemma {:induction false} EnqueueCloseTrims(c: Client, uri: Uri)
    requires TrimInv(c) && c.w.link != Crashed
    ensures TrimInv(c.(w := Queue(c.w, uri, Close)))
  {
    hide Ordered, LastClosed, Staying, Followed, Bounded, ClosedWell;
    var w' := Queue(c.w, uri, Close);
    QueueKeepsShape(c.w, uri, Close);
    QueueExtends(c.w, uri, Close);
    QueuedLastClosed(c.w, uri, Close);
    FollowedStays(c, w');
    StayingShrinks(c.w, w');
    BoundedStays(c, w');
    WellStays(c, w');
  }

  lemma {:induction false} EnqueueSyncTrims(c: Client, uri: Uri, op: Op)
    requires TrimInv(c) && c.w.link != Crashed && IsSync(op)
    ensures TrimInv(Client(Queue(c.w, uri, op), c.rests[|c.w.tasks| := if op.Sync? then TrimNext else CloseNext]))
  {
    hide Ordered, LastClosed, Staying, Followed;
    var n := |c.w.tasks|;
    var rests := c.rests[n := if op.Sync? then TrimNext else CloseNext];
    QueueKeepsShape(c.w, uri, op);
    QueuedLastClosed(c.w, uri, op);
    assert n in rests && !rests[n].Done?;
    NewIsFollowed(c, uri, op);
  }

  lemma {:induction false} NewIsFollowed(c: Client, uri: Uri, op: Op)
    requires Followed(c) && ClosedWell(c) && IsSync(op)
    ensures Followed(Client(Queue(c.w, uri, op), c.rests[|c.w.tasks| := if op.Sync? then TrimNext else CloseNext]))
  {
    hide Extends, Settled;
    var w', n := Queue(c.w, uri, op), |c.w.tasks|;
    var rests := c.rests[n := if op.Sync? then TrimNext else CloseNext];
    QueueExtends(c.w, uri, op);
    forall t | 0 <= t < |w'.tasks|
      ensures IsSync(w'.tasks[t].op) ==> t in rests && (Initial(rests[t]) || Settled(w', t))
      ensures w'.tasks[t].op.CloseTransient? ==> Settled(w', t) || exists p :: p in rests && rests[p] == Closing(t)
    {
      if t < n {
        if Settled(c.w, t) { SettledStays(c.w, w', t); }
        else if c.w.tasks[t].op.CloseTransient? { StillClosing(c, n, rests[n], t); }
      }
    }
  }

  lemma {:induction false} StillClosing(c: Client, n: TaskId, rest: Rest, t: TaskId)
    requires n !in c.rests && exists p :: p in c.rests && c.rests[p] == Closing(t)
    ensures var rests := c.rests[n := rest]; exists p :: p in rests && rests[p] == Closing(t)
  {
    var rests := c.rests[n := rest];
    var p :| p in c.rests && c.rests[p] == Closing(t);
    assert p in rests && rests[p] == Closing(t);
  }

  lemma {:induction false} SettleTrims(c: Client, id: TaskId)
    requires TrimInv(c) && Enabled(c.w, Settle(id))
    ensures TrimInv(c.(w := Next(c.w, Settle(id))))
  {
    hide Ordered, Followed, Staying, Unfinished;
    var w' := Next(c.w, Settle(id));
    SettleOrders(c.w, id);
    FollowedStays(c, w');
    StayingShrinks(c.w, w');
    BoundedStays(c, w');
  }

  lemma {:induction false} LinkTrims(c: Client, a: Action)
    requires TrimInv(c) && Enabled(c.w, a) && (a.Crash? || a.Restart?)
    ensures TrimInv(c.(w := Next(c.w, a)))
  {
    hide Ordered, Staying, Unfinished;
    var w' := Next(c.w, a);
    LinkOrders(c.w, a);
    if !a.Crash? {
      FollowedStays(c, w');
      StayingShrinks(c.w, w');
      BoundedStays(c, w');
    }
  }

  lemma {:induction false} NothingStays(w: World)
    requires w.table.states == map[]
    ensures Staying(w) == {}
  {
    hide ToClose;
  }

  lemma {:induction false} TrimHasRests(c: Client)
    requires TrimInv(c)
    ensures HaveRests(c)
  {
    hide Ordered, ClosedWell, LastClosed, Bounded;
  }

  lemma {:induction false} EndedIsFollowed(c: Client)
    requires HaveRests(c) && Enabled(c.w, Stop)
    ensures Followed(Client(Next(c.w, Stop), AllDone(c.rests)))
  {
  }

  lemma {:induction false} StopTrims(c: Client)
    requires TrimInv(c) && Enabled(c.w, Stop)
    ensures TrimInv(Client(Next(c.w, Stop), AllDone(c.rests)))
  {
    hide Ordered, Unfinished, Staying, Followed, HaveRests;
    StopOrders(c.w);
    NothingStays(Next(c.w, Stop));
    TrimHasRests(c);
    EndedIsFollowed(c);
  }

  /** A rest queues an operation and waits for it. */
  lemma {:induction false} WaitTrims(c: Client, id: TaskId, uri: Uri, op: Op, rest: Rest)
    requires TrimInv(c) && c.w.link != Crashed && Ready(c, id)
    requires (op == CloseTransient && rest == Closing(|c.w.tasks|)) || (op == Close && rest == Trimming(|c.w.tasks|))
    ensures TrimInv(Client(Queue(c.w, uri, op), c.rests[id := rest]))
  {
    hide Ordered, LastClosed, Staying, Followed;
    var w', rests := Queue(c.w, uri, op), c.rests[id := rest];
    QueueKeepsShape(c.w, uri, op);
    QueueExtends(c.w, uri, op);
    QueuedLastClosed(c.w, uri, op);
    FollowedOn(c, w', id, rest);
    assert id in rests && !rests[id].Done?;
  }

  lemma {:induction false} DoneTrims(c: Client, id: TaskId, victim: Option<Uri>)
    requires TrimInv(c) && c.w.link != Crashed && Ready(c, id) && c.w.config.maxDocuments >= 1
    requires GoodVictim(c.w, c.w.tasks[id].uri, victim) && (|c.w.table.states| <= c.w.config.maxDocuments || victim.None?)
    ensures TrimInv(c.(rests := c.rests[id := Done]))
  {
    hide Ordered, LastClosed, Bounded, Followed, GoodVictim;
    TrimEnds(c, id, victim);
    FollowedOn(c, c.w, id, Done);
  }

  lemma {:induction false} FollowTrims(c: Client, id: TaskId, victim: Option<Uri>)
    requires TrimInv(c) && Allowed(c, Follow(id, victim)) && c.w.config.maxDocuments >= 1
    ensures TrimInv(After(c, Follow(id, victim)))
  {
    hide TrimInv, GoodVictim, Queue;
    EvictionEndsWell(c, id);
    if c.rests[id].CloseNext? {
      WaitTrims(c, id, c.w.tasks[id].uri, CloseTransient, Closing(|c.w.tasks|));
    } else if |c.w.table.states| > c.w.config.maxDocuments && victim.Some? {
      WaitTrims(c, id, victim.value, Close, Trimming(|c.w.tasks|));
    } else {
      DoneTrims(c, id, victim);
    }
  }

  lemma {:induction false} EvictionEndsWell(c: Client, id: TaskId)
    requires TrimInv(c) && Ready(c, id)
    ensures c.rests[id].Trimming? ==> c.w.tasks[c.rests[id].child].pc.ok
  {
    hide Ordered;
  }

  lemma {:induction false} MoveTrims(c: Client, m: Move)
    requires TrimInv(c) && Allowed(c, m) && c.w.config.maxDocuments >= 1
    ensures TrimInv(After(c, m)) && After(c, m).w.config == c.w.config
  {
    hide TrimInv, Ordered, StartStep, ConfirmStep, AnswerStep, MakeRoomStep, OpenStep, GoodHint, Table.Valid, GoodVictim;
    TrimIsOrdered(c);
    match m
    case Follow(id, victim) => FollowTrims(c, id, victim);
    case Base(a) =>
      NextOrders(c.w, a);
      match a {
        case Enqueue(uri, op) => EnqueueTrims(c, uri, op);
        case Start(id, hint) => StartTrims(c, id, hint);
        case Resume(id, hint) => ResumeTrims(c, id, hint);
        case Confirm(id) => ConfirmTrims(c, id);
        case Answer(id, answered) => AnswerTrims(c, id, answered);
        case Settle(id) => SettleTrims(c, id);
        case Stop => StopTrims(c);
        case _ => LinkTrims(c, a);
      }
  }

  lemma {:induction false} SessionTrims(config: Config, moves: seq<Move>)
    requires config.maxDocuments >= 1
    ensures var c := Session(config, moves); c.Some? ==> TrimInv(c.value) && c.value.w.config == config
  {
    hide TrimInv, Allowed, After;
    if moves == [] {
      FreshTrims(config);
    } else {
      var c := Session(config, moves[..|moves| - 1]);
      SessionTrims(config, moves[..|moves| - 1]);
      if c.Some? && Allowed(c.value, moves[|moves| - 1]) { MoveTrims(c.value, moves[|moves| - 1]); }
    }
  }

  lemma {:induction false} FreshTrims(config: Config)
    ensures TrimInv(Client(Fresh(config), map[])) && Fresh(config).config == config
  {
    FreshIsOrdered(config);
    assert Staying(Fresh(config)) == {};
  }

  /** In every interleaving: once all operations and all that follows them have ended, the table is within
    * its bound. */
  lemma {:induction false} TrimmedWhenQuiet(config: Config, moves: seq<Move>)
    requires config.maxDocuments >= 1 && Session(config, moves).Some?
    requires var c := Session(config, moves).value;
             c.w.link == Up && AllFinished(c.w) && forall id | id in c.rests :: c.rests[id].Done?
    ensures |Session(config, moves).value.w.table.states| <= config.maxDocuments
  {
    hide Session, Ordered;
    SessionTrims(config, moves);
    var c := Session(config, moves).value;
    assert Staying(c.w) == c.w.table.states.Keys;
  }

  /** And until then something can be done: an operation can take a step, a queue entry can go, or a rest
    * can go on. */
  ghost predicate Lively(c: Client, m: Move)
  {
    Allowed(c, m) && (m.Follow? || m.a.Start? || m.a.Resume? || m.a.Confirm? || m.a.Answer? || m.a.Settle?)
  }

  lemma {:induction false} NeverStuck(config: Config, moves: seq<Move>) returns (m: Move)
    requires config.maxDocuments >= 1 && Session(config, moves).Some?
    requires var c := Session(config, moves).value;
             c.w.link == Up && !(AllFinished(c.w) && forall id | id in c.rests :: c.rests[id].Done?)
    ensures Lively(Session(config, moves).value, m)
  {
    hide Session, Ordered, TrimInv, Enabled;
    SessionTrims(config, moves);
    var c := Session(config, moves).value;
    if t :| 0 <= t < |c.w.tasks| && !c.w.tasks[t].pc.Finished? {
      var actions := SessionIsRun(config, moves);
      var a := DocumentGuarantees.NeverStuck(config, actions, t);
      return Base(a);
    }
    if u :| u in c.w.queues {
      m := SettleNext(c, u);
      return;
    }
    var id :| id in c.rests && !c.rests[id].Done?;
    m := FollowNext(c, id);
  }

  lemma {:induction false} SettleNext(c: Client, u: Uri) returns (m: Move)
    requires TrimInv(c) && c.w.link == Up && AllFinished(c.w) && u in c.w.queues
    ensures Lively(c, m)
  {
    hide Ordered, Followed, LastClosed, Bounded, ClosedWell;
    QueueNames(c.w, u);
    m := Base(Settle(c.w.queues[u]));
  }

  lemma {:induction false} FollowNext(c: Client, id: TaskId) returns (m: Move)
    requires TrimInv(c) && c.w.link == Up && AllFinished(c.w) && c.w.queues == map[] && id in c.rests && !c.rests[id].Done?
    ensures Lively(c, m)
  {
    hide Ordered, Followed, LastClosed, Bounded, Table.Valid;
    var victim := LeastRecentlyUsed(c.w.table, c.w.queues.Keys, c.w.tasks[id].uri, c.w.table.states.Keys);
    m := Follow(id, victim);
  }
}
