/** Removing tool transactions from a conversation: src/prune/prune.ts, lines 65-123, 215-227 and 310-314. */
module Pruning {
  datatype Block = Text(text: string) | Thinking(thinking: string) | ToolCall(id: string, name: string, arguments: string)

  datatype Message =
    | Assistant(content: seq<Block>, usage: string)
    | ToolResult(toolCallId: string, output: string)
    | Other(role: string, body: string)          // user messages and the rest

  type Messages = seq<Message>
  type Ids = set<string>

  datatype PruneResult = PruneResult(
    messages: Messages,
    removedAssistantMessages: nat,
    removedToolCalls: nat,
    removedToolResults: nat)

  // ---------------------------------------------------------------- one message

  predicate Calls(block: Block, ids: Ids) { block.ToolCall? && block.id in ids }

  predicate CallsOutside(block: Block, ids: Ids) { block.ToolCall? && block.id !in ids }

  predicate Remains(content: seq<Block>, ids: Ids)
  {
    exists i | 0 <= i < |content| :: CallsOutside(content[i], ids)
  }

  /** Thinking stays only beside a tool call that stays. */
  predicate Keeps(block: Block, ids: Ids, remaining: bool)
  {
    match block
    case ToolCall(id, _, _) => id !in ids
    case Thinking(_) => remaining
    case Text(_) => true
  }

  function Kept(content: seq<Block>, ids: Ids, remaining: bool): (kept: seq<Block>)
    ensures |kept| <= |content|
  {
    if content == [] then []
    else
      var n := |content| - 1;
      Kept(content[..n], ids, remaining) + if Keeps(content[n], ids, remaining) then [content[n]] else []
  }

  function PruneContent(content: seq<Block>, ids: Ids): seq<Block>
  {
    Kept(content, ids, Remains(content, ids))
  }

  function RemovedCalls(content: seq<Block>, ids: Ids): seq<Block>
  {
    if content == [] then []
    else
      var n := |content| - 1;
      RemovedCalls(content[..n], ids) + if Calls(content[n], ids) then [content[n]] else []
  }

  /** What becomes of one message: nothing, itself or a shorter version, with the three counters. */
  function PruneMessage(message: Message, ids: Ids): PruneResult
  {
    match message
    case ToolResult(id, _) => if id in ids then PruneResult([], 0, 0, 1) else PruneResult([message], 0, 0, 0)
    case Other(_, _) => PruneResult([message], 0, 0, 0)
    case Assistant(content, usage) =>
      var removed := RemovedCalls(content, ids);
      if removed == [] then PruneResult([message], 0, 0, 0)
      else
        var kept := PruneContent(content, ids);
        if kept == [] then PruneResult([], 1, |removed|, 0) else PruneResult([Assistant(kept, usage)], 0, |removed|, 0)
  }

  // ---------------------------------------------------------------- the whole conversation

  function Join(a: PruneResult, b: PruneResult): PruneResult
  {
    PruneResult(a.messages + b.messages, a.removedAssistantMessages + b.removedAssistantMessages,
                a.removedToolCalls + b.removedToolCalls, a.removedToolResults + b.removedToolResults)
  }

  function Prune(messages: Messages, ids: Ids): PruneResult
  {
    if messages == [] then PruneResult([], 0, 0, 0)
    else Join(Prune(messages[..|messages| - 1], ids), PruneMessage(messages[|messages| - 1], ids))
  }

  method PruneToolTransactions(messages: Messages, toolCallIds: Ids) returns (r: PruneResult)
    ensures r == Prune(messages, toolCallIds)
  {
    hide PruneContent, RemovedCalls;
    r := PruneResult([], 0, 0, 0);
    var next := 0;
    assert messages[..0] == [];
    while next < |messages|
      invariant next <= |messages|
      invariant r == Prune(messages[..next], toolCallIds)
    {
      var message := messages[next];
      assert messages[..next + 1][..next] == messages[..next] && messages[..next + 1][next] == message;
      next := next + 1;
      if message.ToolResult? && message.toolCallId in toolCallIds {
        r := r.(removedToolResults := r.removedToolResults + 1);
        continue;
      }
      if !message.Assistant? {
        r := r.(messages := r.messages + [message]);
        continue;
      }
      var removed := RemovedCalls(message.content, toolCallIds);
      if removed == [] {
        r := r.(messages := r.messages + [message]);
        continue;
      }
      r := r.(removedToolCalls := r.removedToolCalls + |removed|);
      var content := PruneContent(message.content, toolCallIds);
      if content == [] {
        r := r.(removedAssistantMessages := r.removedAssistantMessages + 1);
        continue;
      }
      r := r.(messages := r.messages + [message.(content := content)]);
    }
    assert messages[..next] == messages;
  }

  // ---------------------------------------------------------------- calls and results

  function BlockCalls(content: seq<Block>): seq<string>
  {
    if content == [] then []
    else
      var n := |content| - 1;
      BlockCalls(content[..n]) + if content[n].ToolCall? then [content[n].id] else []
  }

  /** The tool calls of a conversation, in order. */
  function CallIds(messages: Messages): seq<string>
  {
    if messages == [] then []
    else
      var last := messages[|messages| - 1];
      CallIds(messages[..|messages| - 1]) + if last.Assistant? then BlockCalls(last.content) else []
  }

  function ResultIds(messages: Messages): seq<string>
  {
    if messages == [] then []
    else
      var last := messages[|messages| - 1];
      ResultIds(messages[..|messages| - 1]) + if last.ToolResult? then [last.toolCallId] else []
  }

  function Without(ids: seq<string>, removed: Ids): (kept: seq<string>)
    ensures forall id :: id in kept <==> id in ids && id !in removed
  {
    if ids == [] then []
    else
      var n := |ids| - 1;
      Without(ids[..n], removed) + if ids[n] in removed then [] else [ids[n]]
  }

  lemma WithoutAdd(ids: seq<string>, id: string, removed: Ids)
    ensures Without(ids + [id], removed) == if id in removed then Without(ids, removed) else Without(ids, removed) + [id]
  {
    assert (ids + [id])[..|ids|] == ids;
  }

  lemma {:induction false} WithoutJoin(a: seq<string>, b: seq<string>, removed: Ids)
    ensures Without([], removed) == [] && Without(a + b, removed) == Without(a, removed) + Without(b, removed)
  {
    hide Without;
    WithoutFew(removed);
    if b == [] {
      assert a + b == a;
    } else {
      var n := |b| - 1;
      WithoutJoin(a, b[..n], removed);
      WithoutAdd(a + b[..n], b[n], removed);
      WithoutAdd(b[..n], b[n], removed);
      assert a + b == (a + b[..n]) + [b[n]] && b == b[..n] + [b[n]];
    }
  }

  function Completed(messages: Messages, excluded: Ids): Ids
  {
    set id | id in CallIds(messages) && id in ResultIds(messages) && id !in excluded
  }

  /** Two passes: the ids that have a result, then the calls among them. */
  method FindCompletedToolCallIds(messages: Messages, excluded: Ids) returns (completed: Ids)
    ensures completed == Completed(messages, excluded)
  {
    var resultIds: Ids := {};
    var next := 0;
    assert messages[..0] == [];
    while next < |messages|
      invariant next <= |messages|
      invariant forall id :: id in resultIds <==> id in ResultIds(messages[..next]) && id !in excluded
    {
      assert messages[..next + 1][..next] == messages[..next];
      var message := messages[next];
      if message.ToolResult? && message.toolCallId !in excluded { resultIds := resultIds + {message.toolCallId}; }
      next := next + 1;
    }
    assert messages[..next] == messages;
    completed := {};
    next := 0;
    while next < |messages|
      invariant next <= |messages|
      invariant forall id :: id in completed <==> id in CallIds(messages[..next]) && id in resultIds && id !in excluded
    {
      assert messages[..next + 1][..next] == messages[..next];
      if messages[next].Assistant? {
        var more := CompletedCalls(messages[next].content, resultIds, excluded);
        completed := completed + more;
      }
      next := next + 1;
    }
    assert messages[..next] == messages;
  }

  method CompletedCalls(content: seq<Block>, resultIds: Ids, excluded: Ids) returns (completed: Ids)
    ensures forall id :: id in completed <==> id in BlockCalls(content) && id in resultIds && id !in excluded
  {
    completed := {};
    var next := 0;
    assert content[..0] == [];
    while next < |content|
      invariant next <= |content|
      invariant forall id :: id in completed <==> id in BlockCalls(content[..next]) && id in resultIds && id !in excluded
    {
      var block := content[next];
      assert content[..next + 1][..next] == content[..next];
      if block.ToolCall? && block.id in resultIds && block.id !in excluded { completed := completed + {block.id}; }
      next := next + 1;
    }
    assert content[..next] == content;
  }

  // ---------------------------------------------------------------- pruning keeps the rest

  lemma ContentAdd(content: seq<Block>, block: Block, ids: Ids, remaining: bool)
    ensures BlockCalls(content + [block]) == if block.ToolCall? then BlockCalls(content) + [block.id] else BlockCalls(content)
    ensures Kept(content + [block], ids, remaining) ==
            if Keeps(block, ids, remaining) then Kept(content, ids, remaining) + [block] else Kept(content, ids, remaining)
    ensures RemovedCalls(content + [block], ids) ==
            if Calls(block, ids) then RemovedCalls(content, ids) + [block] else RemovedCalls(content, ids)
    ensures Remains(content + [block], ids) <==> Remains(content, ids) || CallsOutside(block, ids)
  {
    var longer := content + [block];
    assert longer[..|content|] == content && longer[|content|] == block;
    if Remains(content, ids) {
      var i :| 0 <= i < |content| && CallsOutside(content[i], ids);
      assert CallsOutside(longer[i], ids);
    }
  }

  lemma NoContent(ids: Ids, remaining: bool)
    ensures BlockCalls([]) == [] && Kept([], ids, remaining) == [] && RemovedCalls([], ids) == [] && !Remains([], ids)
  {
  }

  lemma {:induction false} KeptCalls(content: seq<Block>, ids: Ids, remaining: bool)
    ensures BlockCalls(Kept(content, ids, remaining)) == Without(BlockCalls(content), ids)
    ensures RemovedCalls(content, ids) == [] ==> Without(BlockCalls(content), ids) == BlockCalls(content)
    ensures |BlockCalls(content)| == |Without(BlockCalls(content), ids)| + |RemovedCalls(content, ids)|
  {
    hide BlockCalls, Kept, RemovedCalls, Without, Remains;
    NoContent(ids, remaining);
    WithoutFew(ids);
    if content != [] {
      var n := |content| - 1;
      var before, last := content[..n], content[n];
      assert content == before + [last];
      KeptCalls(before, ids, remaining);
      ContentAdd(before, last, ids, remaining);
      ContentAdd(Kept(before, ids, remaining), last, ids, remaining);
      if last.ToolCall? { WithoutAdd(BlockCalls(before), last.id, ids); }
    }
  }

  lemma PruneMessageIds(message: Message, ids: Ids)
    ensures CallIds(PruneMessage(message, ids).messages) == Without(CallIds([message]), ids)
    ensures ResultIds(PruneMessage(message, ids).messages) == Without(ResultIds([message]), ids)
  {
    hide RemovedCalls, Kept, BlockCalls, Without, CallIds, ResultIds;
    WithoutFew(ids);
    NoMessages();
    OneMessage(message);
    if message.Assistant? {
      var kept := PruneContent(message.content, ids);
      KeptCalls(message.content, ids, Remains(message.content, ids));
      OneMessage(message.(content := kept));
    }
  }

  lemma WithoutFew(ids: Ids)
    ensures Without([], ids) == [] && forall id :: Without([id], ids) == if id in ids then [] else [id]
  {
    forall id ensures Without([id], ids) == if id in ids then [] else [id] { assert [id][..0] == []; }
  }

  lemma NoMessages()
    ensures CallIds([]) == [] && ResultIds([]) == [] && BlockCalls([]) == []
  {
  }

  lemma OneMessage(message: Message)
    ensures CallIds([message]) == if message.Assistant? then BlockCalls(message.content) else []
    ensures ResultIds([message]) == if message.ToolResult? then [message.toolCallId] else []
  {
    assert [message][..0] == [];
  }

  lemma IdsAdd(messages: Messages, message: Message)
    ensures CallIds(messages + [message]) == CallIds(messages) + CallIds([message])
    ensures ResultIds(messages + [message]) == ResultIds(messages) + ResultIds([message])
  {
    hide BlockCalls;
    assert (messages + [message])[..|messages|] == messages;
    OneMessage(message);
  }

  lemma {:induction false} IdsJoin(a: Messages, b: Messages)
    ensures CallIds(a + b) == CallIds(a) + CallIds(b) && ResultIds(a + b) == ResultIds(a) + ResultIds(b)
  {
    hide CallIds, ResultIds;
    NoMessages();
    if b == [] {
      assert a + b == a;
    } else {
      var n := |b| - 1;
      IdsJoin(a, b[..n]);
      assert a + b == (a + b[..n]) + [b[n]] && b == b[..n] + [b[n]];
      IdsAdd(a + b[..n], b[n]);
      IdsAdd(b[..n], b[n]);
    }
  }

  /** Pruning removes exactly the calls and the results with these ids, and keeps the others in order. */
  lemma {:induction false} PruneKeepsOthers(messages: Messages, ids: Ids)
    ensures CallIds(Prune(messages, ids).messages) == Without(CallIds(messages), ids)
    ensures ResultIds(Prune(messages, ids).messages) == Without(ResultIds(messages), ids)
  {
    hide PruneMessage;
    if messages != [] {
      var n := |messages| - 1;
      var before, last := messages[..n], messages[n];
      PruneKeepsOthers(before, ids);
      PruneMessageIds(last, ids);
      IdsJoin(Prune(before, ids).messages, PruneMessage(last, ids).messages);
      OneMessage(last);
      WithoutJoin(CallIds(before), CallIds([last]), ids);
      WithoutJoin(ResultIds(before), ResultIds([last]), ids);
    }
  }

  /** What is completed after pruning is what was completed before, less what was pruned. */
  lemma CompletedAfterPruning(messages: Messages, ids: Ids, excluded: Ids)
    ensures Completed(Prune(messages, ids).messages, excluded) == Completed(messages, excluded) - ids
    ensures Completed(Prune(messages, ids).messages, {}) == Completed(messages, ids)
  {
    PruneKeepsOthers(messages, ids);
  }

  /** Every result answers a call made before it. */
  ghost predicate NoOrphans(messages: Messages)
  {
    messages == [] ||
    var n := |messages| - 1;
    NoOrphans(messages[..n]) && (messages[n].ToolResult? ==> messages[n].toolCallId in CallIds(messages[..n]))
  }

  lemma {:induction false} NoOrphansJoin(a: Messages, message: Message)
    requires NoOrphans(a) && (message.ToolResult? ==> message.toolCallId in CallIds(a))
    ensures NoOrphans(a + [message])
  {
    assert (a + [message])[..|a|] == a;
  }

  /** No tool result loses its call. */
  lemma {:induction false} PruningOrphansNothing(messages: Messages, ids: Ids)
    requires NoOrphans(messages)
    ensures NoOrphans(Prune(messages, ids).messages)
  {
    hide CallIds, PruneContent, RemovedCalls;
    if messages != [] {
      var n := |messages| - 1;
      var before, last := Prune(messages[..n], ids).messages, PruneMessage(messages[n], ids).messages;
      PruningOrphansNothing(messages[..n], ids);
      PruneKeepsOthers(messages[..n], ids);
      if last == [] {
        assert before + last == before;
      } else {
        NoOrphansJoin(before, last[0]);
        assert last == [last[0]];
      }
    }
  }

  lemma PruneMessageCounts(message: Message, ids: Ids)
    ensures var r := PruneMessage(message, ids);
            && 1 == |r.messages| + r.removedAssistantMessages + r.removedToolResults
            && |CallIds([message])| == |CallIds(r.messages)| + r.removedToolCalls
            && |ResultIds([message])| == |ResultIds(r.messages)| + r.removedToolResults
  {
    hide RemovedCalls, Kept, BlockCalls, Without, CallIds, ResultIds;
    PruneMessageIds(message, ids);
    OneMessage(message);
    NoMessages();
    WithoutFew(ids);
    if message.Assistant? {
      KeptCalls(message.content, ids, Remains(message.content, ids));
    }
  }

  /** The counters account for every message and every call that is gone. */
  lemma {:induction false} PruneCounts(messages: Messages, ids: Ids)
    ensures var r := Prune(messages, ids);
            && |messages| == |r.messages| + r.removedAssistantMessages + r.removedToolResults
            && |CallIds(messages)| == |CallIds(r.messages)| + r.removedToolCalls
            && |ResultIds(messages)| == |ResultIds(r.messages)| + r.removedToolResults
  {
    hide PruneMessage, CallIds, ResultIds;
    if messages == [] {
      NoMessages();
    } else {
      var n := |messages| - 1;
      PruneCounts(messages[..n], ids);
      PruneMessageCounts(messages[n], ids);
      assert messages == messages[..n] + [messages[n]];
      IdsJoin(messages[..n], [messages[n]]);
      IdsJoin(Prune(messages[..n], ids).messages, PruneMessage(messages[n], ids).messages);
    }
  }

  // ---------------------------------------------------------------- pruning twice

  lemma {:induction false} RemainsKept(content: seq<Block>, a: Ids, b: Ids, remaining: bool)
    ensures Remains(Kept(content, a, remaining), b) <==> Remains(content, a + b)
  {
    hide Kept, Remains;
    NoContent(a, remaining);
    NoContent(b, remaining);
    NoContent(a + b, remaining);
    if content != [] {
      var n := |content| - 1;
      var before, last := content[..n], content[n];
      assert content == before + [last];
      RemainsKept(before, a, b, remaining);
      ContentAdd(before, last, a, remaining);
      ContentAdd(before, last, a + b, remaining);
      ContentAdd(Kept(before, a, remaining), last, b, remaining);
    }
  }

  lemma {:induction false} KeptTwice(content: seq<Block>, a: Ids, b: Ids, first: bool, second: bool)
    requires second ==> first
    ensures Kept(Kept(content, a, first), b, second) == Kept(content, a + b, second)
    ensures |RemovedCalls(content, a)| + |RemovedCalls(Kept(content, a, first), b)| == |RemovedCalls(content, a + b)|
  {
    hide Kept, RemovedCalls, Remains;
    NoContent(a, first);
    NoContent(b, second);
    NoContent(a + b, second);
    if content != [] {
      var n := |content| - 1;
      var before, last := content[..n], content[n];
      assert content == before + [last];
      KeptTwice(before, a, b, first, second);
      ContentAdd(before, last, a, first);
      ContentAdd(before, last, a + b, second);
      ContentAdd(Kept(before, a, first), last, b, second);
    }
  }

  /** Nothing to remove: the whole content passes, thinking included. */
  lemma {:induction false} KeptAll(content: seq<Block>, ids: Ids)
    requires RemovedCalls(content, ids) == []
    ensures Kept(content, ids, true) == content
  {
    hide Kept, RemovedCalls, Remains;
    NoContent(ids, true);
    if content != [] {
      var n := |content| - 1;
      assert content == content[..n] + [content[n]];
      ContentAdd(content[..n], content[n], ids, true);
      KeptAll(content[..n], ids);
    }
  }

  /** Thinking that went does not come back, and neither does anything else. */
  lemma {:induction false} KeptAgain(content: seq<Block>, a: Ids, b: Ids)
    requires RemovedCalls(Kept(content, a, false), b) == []
    ensures Kept(Kept(content, a, false), b, false) == Kept(content, a, false)
  {
    hide Kept, RemovedCalls, Remains;
    NoContent(a, false);
    NoContent(b, false);
    if content != [] {
      var n := |content| - 1;
      var before, last := content[..n], content[n];
      assert content == before + [last];
      ContentAdd(before, last, a, false);
      ContentAdd(Kept(before, a, false), last, b, false);
      KeptAgain(before, a, b);
    }
  }

  lemma {:induction false} RemainsWithout(content: seq<Block>, a: Ids, b: Ids)
    ensures Remains(content, a + b) ==> Remains(content, a)
    ensures Remains(content, b) && RemovedCalls(content, a) == [] ==> Remains(content, a + b)
  {
    hide RemovedCalls, Remains, Kept;
    NoContent(a, false);
    NoContent(b, false);
    NoContent(a + b, false);
    if content != [] {
      var n := |content| - 1;
      var before, last := content[..n], content[n];
      assert content == before + [last];
      RemainsWithout(before, a, b);
      ContentAdd(before, last, a, false);
      ContentAdd(before, last, b, false);
      ContentAdd(before, last, a + b, false);
    }
  }

  /** Where the first pruning changes nothing, the second does what the union does. */
  lemma UnchangedContent(content: seq<Block>, a: Ids, b: Ids)
    requires RemovedCalls(content, a) == []
    ensures |RemovedCalls(content, a + b)| == |RemovedCalls(content, b)|
    ensures PruneContent(content, a + b) == PruneContent(content, b)
  {
    hide Kept, RemovedCalls, Remains;
    KeptAll(content, a);
    KeptTwice(content, a, b, true, Remains(content, a + b));
    RemainsKept(content, a, b, true);
  }

  /** Where it does change something, the second changes the rest or finds it as the union leaves it. */
  lemma ChangedContent(content: seq<Block>, a: Ids, b: Ids)
    requires RemovedCalls(content, a) != []
    ensures var kept := PruneContent(content, a);
            && |RemovedCalls(content, a)| + |RemovedCalls(kept, b)| == |RemovedCalls(content, a + b)|
            && PruneContent(content, a + b) == (if RemovedCalls(kept, b) == [] then kept else PruneContent(kept, b))
            && (kept == [] ==> RemovedCalls(kept, b) == [])
  {
    hide Kept, RemovedCalls, Remains;
    var first, both := Remains(content, a), Remains(content, a + b);
    var kept := Kept(content, a, first);
    RemainsWithout(content, a, b);
    KeptTwice(content, a, b, first, both);
    RemainsKept(content, a, b, first);
    NoContent(b, both);
    if RemovedCalls(kept, b) == [] {
      RemainsKept(content, a, {}, first);
      assert a + {} == a && {} + b == b && b + {} == b;
      RemainsWithout(kept, b, {});
      if first { KeptAll(kept, b); } else { KeptAgain(content, a, b); }
    }
  }

  lemma PruneOne(message: Message, ids: Ids)
    ensures Prune([], ids) == PruneResult([], 0, 0, 0)
    ensures Prune([message], ids) == PruneMessage(message, ids)
  {
    assert [message][..0] == [];
  }

  lemma PruneAdd(messages: Messages, message: Message, ids: Ids)
    ensures Prune(messages + [message], ids) == Join(Prune(messages, ids), PruneMessage(message, ids))
  {
    hide PruneMessage, Join;
    assert (messages + [message])[..|messages|] == messages;
  }

  lemma JoinAssociates(a: PruneResult, b: PruneResult, c: PruneResult)
    ensures Join(Join(a, b), c) == Join(a, Join(b, c)) && Join(a, PruneResult([], 0, 0, 0)) == a
  {
  }

  lemma {:induction false} PruneJoin(x: Messages, y: Messages, ids: Ids)
    ensures Prune(x + y, ids) == Join(Prune(x, ids), Prune(y, ids))
  {
    hide PruneMessage, Prune, Join;
    JoinAssociates(Prune(x, ids), Prune(x, ids), Prune(x, ids));
    if y == [] {
      assert x + y == x;
      PruneNothing(ids);
    } else {
      var n := |y| - 1;
      assert y == y[..n] + [y[n]] && x + y == (x + y[..n]) + [y[n]];
      PruneJoin(x, y[..n], ids);
      PruneAdd(x + y[..n], y[n], ids);
      PruneAdd(y[..n], y[n], ids);
      JoinAssociates(Prune(x, ids), Prune(y[..n], ids), PruneMessage(y[n], ids));
    }
  }

  lemma PruneNothing(ids: Ids)
    ensures Prune([], ids) == PruneResult([], 0, 0, 0)
  {
  }

  lemma PruneMessageTwice(message: Message, a: Ids, b: Ids)
    ensures Again(PruneMessage(message, a), b) == PruneMessage(message, a + b)
  {
    hide RemovedCalls, PruneContent, Prune;
    PruneOne(message, b);
    if message.Assistant? {
      PruneOne(message.(content := PruneContent(message.content, a)), b);
      if RemovedCalls(message.content, a) == [] {
        UnchangedContent(message.content, a, b);
      } else {
        ChangedContent(message.content, a, b);
      }
    }
  }

  /** The second pruning of a result, with the counters of both. */
  function Again(first: PruneResult, ids: Ids): PruneResult
  {
    Join(first.(messages := []), Prune(first.messages, ids))
  }

  lemma AgainJoin(p: PruneResult, q: PruneResult, ids: Ids)
    ensures Again(Join(p, q), ids) == Join(Again(p, ids), Again(q, ids))
  {
    hide Prune;
    PruneJoin(p.messages, q.messages, ids);
  }

  /** Pruning by one set and then by another is pruning once by both: the same messages, thinking
    * and emptied messages included, and the three counters add up. */
  lemma {:induction false} PruneTwice(messages: Messages, a: Ids, b: Ids)
    ensures Again(Prune(messages, a), b) == Prune(messages, a + b)
  {
    hide PruneMessage, Prune, Join, Again;
    PruneNothing(a);
    PruneNothing(a + b);
    if messages == [] {
      AgainNothing(b);
    } else {
      var n := |messages| - 1;
      assert messages == messages[..n] + [messages[n]];
      PruneTwice(messages[..n], a, b);
      PruneMessageTwice(messages[n], a, b);
      PruneAdd(messages[..n], messages[n], a);
      PruneAdd(messages[..n], messages[n], a + b);
      AgainJoin(Prune(messages[..n], a), PruneMessage(messages[n], a), b);
    }
  }

  lemma AgainNothing(ids: Ids)
    ensures Again(PruneResult([], 0, 0, 0), ids) == PruneResult([], 0, 0, 0)
  {
    hide Prune;
    PruneNothing(ids);
  }

  // ---------------------------------------------------------------- what is never pruned

  function ContentTexts(content: seq<Block>): seq<Block>
  {
    if content == [] then []
    else
      var n := |content| - 1;
      if content[n].Text? then ContentTexts(content[..n]) + [content[n]] else ContentTexts(content[..n])
  }

  lemma TextsAdd(content: seq<Block>, block: Block)
    ensures ContentTexts([]) == []
    ensures ContentTexts(content + [block]) == if block.Text? then ContentTexts(content) + [block] else ContentTexts(content)
  {
    assert (content + [block])[..|content|] == content;
  }

  lemma {:induction false} KeptTexts(content: seq<Block>, ids: Ids, remaining: bool)
    ensures ContentTexts(Kept(content, ids, remaining)) == ContentTexts(content)
  {
    hide ContentTexts, Kept;
    NoContent(ids, remaining);
    if content != [] {
      var n := |content| - 1;
      assert content == content[..n] + [content[n]];
      KeptTexts(content[..n], ids, remaining);
      ContentAdd(content[..n], content[n], ids, remaining);
      TextsAdd(content[..n], content[n]);
      TextsAdd(Kept(content[..n], ids, remaining), content[n]);
    }
  }

  /** The texts of assistant messages and all other messages, in order. */
  function Speech(messages: Messages): seq<Message>
  {
    if messages == [] then []
    else
      var n := |messages| - 1;
      Speech(messages[..n]) + OwnSpeech(messages[n])
  }

  function OwnSpeech(message: Message): seq<Message>
  {
    match message
    case Assistant(content, usage) => if ContentTexts(content) == [] then [] else [Assistant(ContentTexts(content), usage)]
    case ToolResult(_, _) => []
    case Other(_, _) => [message]
  }

  lemma SpeechAdd(messages: Messages, message: Message)
    ensures Speech([]) == [] && Speech(messages + [message]) == Speech(messages) + OwnSpeech(message)
  {
    assert (messages + [message])[..|messages|] == messages;
  }

  lemma PruneMessageSpeech(messages: Messages, message: Message, ids: Ids)
    ensures Speech(messages + PruneMessage(message, ids).messages) == Speech(messages) + OwnSpeech(message)
  {
    hide Speech, Kept, RemovedCalls, ContentTexts, Remains;
    if message.Assistant? {
      TextsAdd([], Text(""));
      KeptTexts(message.content, ids, Remains(message.content, ids));
    }
    var pruned := PruneMessage(message, ids).messages;
    if pruned == [] {
      assert messages + pruned == messages;
    } else {
      assert pruned == [pruned[0]];
      SpeechAdd(messages, pruned[0]);
    }
  }

  /** Nothing said is lost: texts and other messages survive every pruning, in order. */
  lemma {:induction false} SpeechSurvives(messages: Messages, ids: Ids)
    ensures Speech(Prune(messages, ids).messages) == Speech(messages)
  {
    hide Speech, OwnSpeech, PruneMessage, Prune;
    PruneNothing(ids);
    if messages != [] {
      var n := |messages| - 1;
      assert messages == messages[..n] + [messages[n]];
      SpeechSurvives(messages[..n], ids);
      SpeechAdd(messages[..n], messages[n]);
      PruneAdd(messages[..n], messages[n], ids);
      PruneMessageSpeech(Prune(messages[..n], ids).messages, messages[n], ids);
    }
  }

  /** In a message that loses a call, thinking stays, all of it, exactly when another call stays. */
  lemma {:induction false} ThinkingStays(content: seq<Block>, ids: Ids, remaining: bool)
    ensures forall b | b in content && b.Thinking? :: b in Kept(content, ids, remaining) <==> remaining
    ensures forall b | b in Kept(content, ids, remaining) :: b in content && Keeps(b, ids, remaining)
  {
    if content != [] {
      var n := |content| - 1;
      ThinkingStays(content[..n], ids, remaining);
      assert content == content[..n] + [content[n]];
    }
  }

  /** What becomes of a message with thinking in it. */
  lemma ThinkingNeedsCalls(message: Message, ids: Ids, thought: Block)
    requires message.Assistant? && thought in message.content && thought.Thinking?
    ensures var after := PruneMessage(message, ids).messages;
            (after != [] && after[0].Assistant? && thought in after[0].content) <==>
            RemovedCalls(message.content, ids) == [] || Remains(message.content, ids)
  {
    hide Kept, RemovedCalls, Remains;
    ThinkingStays(message.content, ids, Remains(message.content, ids));
  }

  // ---------------------------------------------------------------- the common prefix

  predicate Changes(message: Message, ids: Ids)
  {
    match message
    case ToolResult(id, _) => id in ids
    case Assistant(content, _) => exists i | 0 <= i < |content| :: Calls(content[i], ids)
    case Other(_, _) => false
  }

  function Tokens(messages: Messages, count: Message -> nat): nat
  {
    if messages == [] then 0 else Tokens(messages[..|messages| - 1], count) + count(messages[|messages| - 1])
  }

  /** The number of messages at the start that two conversations share. */
  function CommonLength(a: Messages, b: Messages): (n: nat)
    ensures n <= |a| && n <= |b| && a[..n] == b[..n]
    ensures n < |a| && n < |b| ==> a[n] != b[n]
  {
    if a == [] || b == [] || a[0] != b[0] then 0 else 1 + CommonLength(a[1..], b[1..])
  }

  lemma {:induction false} CommonLengthIs(a: Messages, b: Messages, n: nat)
    requires n <= |a| && n <= |b| && a[..n] == b[..n]
    requires n < |a| && n < |b| ==> a[n] != b[n]
    ensures CommonLength(a, b) == n
  {
    if n > 0 {
      assert a[..n][0] == b[..n][0];
      assert a[1..][..n - 1] == a[..n][1..] && b[1..][..n - 1] == b[..n][1..];
      CommonLengthIs(a[1..], b[1..], n - 1);
    }
  }

  lemma {:induction false} CallsAreRemoved(content: seq<Block>, ids: Ids)
    ensures RemovedCalls(content, ids) == [] <==> forall i | 0 <= i < |content| :: !Calls(content[i], ids)
  {
    if content != [] {
      var n := |content| - 1;
      CallsAreRemoved(content[..n], ids);
      assert forall i | 0 <= i < n :: content[..n][i] == content[i];
    }
  }

  lemma {:induction false} PrunedUnchanged(messages: Messages, ids: Ids)
    requires forall i | 0 <= i < |messages| :: !Changes(messages[i], ids)
    ensures Prune(messages, ids).messages == messages
  {
    if messages != [] {
      var n := |messages| - 1;
      PrunedUnchanged(messages[..n], ids);
      if messages[n].Assistant? { CallsAreRemoved(messages[n].content, ids); }
    }
  }

  lemma {:induction false} KeptDoesNotCall(content: seq<Block>, ids: Ids, remaining: bool)
    ensures RemovedCalls(Kept(content, ids, remaining), ids) == []
  {
    hide RemovedCalls, Kept, Remains;
    NoContent(ids, remaining);
    if content != [] {
      var n := |content| - 1;
      assert content == content[..n] + [content[n]];
      KeptDoesNotCall(content[..n], ids, remaining);
      ContentAdd(content[..n], content[n], ids, remaining);
      ContentAdd(Kept(content[..n], ids, remaining), content[n], ids, remaining);
    }
  }

  /** Nothing in a pruned conversation would change again. */
  lemma {:induction false} PrunedIsSettled(messages: Messages, ids: Ids)
    ensures forall i | 0 <= i < |Prune(messages, ids).messages| :: !Changes(Prune(messages, ids).messages[i], ids)
  {
    hide Kept, RemovedCalls, Remains;
    if messages != [] {
      var n := |messages| - 1;
      PrunedIsSettled(messages[..n], ids);
      if messages[n].Assistant? {
        var content := messages[n].content;
        KeptDoesNotCall(content, ids, Remains(content, ids));
        CallsAreRemoved(content, ids);
        CallsAreRemoved(PruneContent(content, ids), ids);
      }
    }
  }

  /** `findCommonPrefixTokens` counts the messages before the first that changes. They are the longest
    * beginning that the conversation shares with its pruning. */
  method FindCommonPrefixTokens(messages: Messages, ids: Ids, staticPrefixTokens: nat, count: Message -> nat) returns (tokens: nat)
    ensures tokens == staticPrefixTokens + Tokens(messages[..CommonLength(messages, Prune(messages, ids).messages)], count)
  {
    hide Prune;
    tokens := staticPrefixTokens;
    var next := 0;
    while next < |messages|
      invariant next <= |messages| && forall i | 0 <= i < next :: !Changes(messages[i], ids)
      invariant tokens == staticPrefixTokens + Tokens(messages[..next], count)
    {
      if Changes(messages[next], ids) { break; }
      assert messages[..next + 1][..next] == messages[..next];
      tokens := tokens + count(messages[next]);
      next := next + 1;
    }
    PrunedUnchanged(messages[..next], ids);
    PruneJoin(messages[..next], messages[next..], ids);
    PrunedIsSettled(messages, ids);
    var pruned := Prune(messages, ids).messages;
    assert messages == messages[..next] + messages[next..];
    assert pruned == messages[..next] + Prune(messages[next..], ids).messages;
    assert pruned[..next] == messages[..next];
    CommonLengthIs(messages, pruned, next);
  }
}
