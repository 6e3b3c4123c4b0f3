/** One language client, one operation at a time: src/lsp/client.ts, lines 182-227, 359-407,
  * 510-660, 777-786 and 848-884.
  *
  * `server` is what the language server holds, or None after a notification that was not legal. It
  * changes only in `SendNotification`, when the client stops, and when a session starts or ends. What
  * is said of the table holds for every server; what is said of the server, and of its answers, for
  * those that are told of openings exactly when they are told of changes. Other operations may have
  * work queued; only whole operations of the client are taken to run alone. */
module DocumentSync {
  import opened DocumentTable
  import opened LspProtocol
  import opened TextEdits
  import opened Utf16
  import opened Wrappers

  datatype Status = Idle | Ready | Crashed | Stopped

  /** What one operation on `uri` may do to the other documents: drop them, nothing else. */
  ghost predicate OnlyDropped(before: map<Uri, DocumentState>, after: map<Uri, DocumentState>, uri: Uri)
  {
    forall u | u in after && u != uri :: u in before && after[u] == before[u]
  }

  /** Somebody asked to keep the document open. */
  predicate WasPersistent(states: map<Uri, DocumentState>, uri: Uri) { uri in states && states[uri].persistent }

  /** What committing a document does to the entries of the table. */
  lemma CommitFacts(t: Table, uri: Uri, text: Text, languageId: LanguageId, version: nat, open: bool, persistent: bool)
    requires t.Valid()
    ensures var after := t.Commit(uri, text, languageId, version, open, persistent).states;
            && after.Keys == t.states.Keys + {uri}
            && after[uri].text == text && after[uri].version == version && after[uri].open == open
            && after[uri].persistent == (persistent || WasPersistent(t.states, uri))
            && OnlyDropped(t.states, after, uri)
  {
  }

  lemma UseFacts(t: Table, uri: Uri)
    requires t.Valid() && uri in t.states
    ensures var after := t.Touch(uri).states;
            after.Keys == t.states.Keys && OnlyDropped(t.states, after, uri) && after[uri] == t.states[uri].(lastUsed := t.clock + 1)
    ensures var after := t.MarkPersistent(uri).states;
            after.Keys == t.states.Keys && OnlyDropped(t.states, after, uri)
            && after[uri] == t.states[uri].(lastUsed := t.clock + 1, persistent := true)
  {
  }

  lemma OnlyDroppedRefl(a: map<Uri, DocumentState>, uri: Uri)
    ensures OnlyDropped(a, a, uri)
  {
  }

  lemma OnlyDroppedTransitive(a: map<Uri, DocumentState>, b: map<Uri, DocumentState>, c: map<Uri, DocumentState>, uri: Uri)
    requires OnlyDropped(a, b, uri) && OnlyDropped(b, c, uri)
    ensures OnlyDropped(a, c, uri)
  {
  }

  lemma OpenAtServer(c: Config, t: Table, m: Mirror)
    requires Sound(c, t, m)
    ensures m.Keys == set u | u in t.states && t.states[u].open
  {
    forall u: Uri ensures u in m <==> u in t.states && t.states[u].open { SoundAt(c, t, m, u); }
  }

  lemma NothingIsSound(c: Config, t: Table)
    requires t == t.Clear()
    ensures Sound(c, t, map[])
  {
  }

  /** Every entry has the language of its file, and is open only if the server is told of openings; then
    * one that is to be kept open is. */
  ghost predicate Routed(c: Config, states: map<Uri, DocumentState>)
  {
    forall u | u in states :: states[u].languageId == c.language(u) && OpenAsKept(c, states[u])
  }

  predicate OpenAsKept(c: Config, state: DocumentState)
  {
    (state.open ==> c.policy.openClose) && (state.persistent && c.policy.openClose ==> state.open)
  }

  lemma RoutedAt(c: Config, states: map<Uri, DocumentState>, uri: Uri)
    requires Routed(c, states)
    ensures uri in states ==> states[uri].languageId == c.language(uri) && OpenAsKept(c, states[uri])
  {
  }

  lemma CommitRouted(c: Config, t: Table, uri: Uri, text: Text, version: nat, open: bool, persistent: bool)
    requires t.Valid() && Routed(c, t.states) && open == c.policy.openClose
    ensures Routed(c, t.Commit(uri, text, c.language(uri), version, open, persistent).states)
  {
  }

  lemma UseRouted(c: Config, t: Table, uri: Uri)
    requires t.Valid() && Routed(c, t.states)
    ensures Routed(c, t.Touch(uri).states)
    ensures uri in t.states && t.states[uri].open == c.policy.openClose ==> Routed(c, t.MarkPersistent(uri).states)
  {
  }

  lemma CloseRouted(c: Config, t: Table, uri: Uri)
    requires t.Valid() && Routed(c, t.states)
    ensures Routed(c, t.MarkClosed(uri).states) && Routed(c, t.Remove(uri).states)
  {
  }

  lemma CacheRouted(c: Config, t: Table, uri: Uri, version: nat, value: Symbols)
    requires t.Valid() && Routed(c, t.states)
    ensures Routed(c, t.CacheSymbols(uri, version, value).states)
  {
  }

  /** The server already has the text, or nobody tells it of texts. */
  ghost predicate InSync(c: Config, s: Option<DocumentState>, uri: Uri, text: Text)
  {
    s.Some? && s.value.text == text && s.value.languageId == c.language(uri) && (s.value.open || !c.policy.openClose)
  }

  /** What a synchronisation tells the server of its document: nothing if it is in sync; otherwise that it is
    * opened with the text, or one change that leads to it, as far as the server wants to know. */
  ghost predicate Tells(c: Config, s: Option<DocumentState>, uri: Uri, text: Text, more: seq<Notification>)
  {
    if InSync(c, s, uri, text) then more == []
    else if s.None? || (c.policy.openClose && !s.value.open) then
      more == if c.policy.openClose then [DidOpen(uri, c.language(uri), (if s.Some? then s.value.version else 0) + 1, text)] else []
    else if c.policy.change == NoSync then more == []
    else |more| == 1 && more[0].DidChange? && more[0].uri == uri && more[0].version == s.value.version + 1
         && Edited(s.value.text, more[0].content) == Some(text)
  }

  /** The traffic in between is closes of other documents. */
  ghost predicate OnlyCloses(before: seq<Notification>, after: seq<Notification>, uri: Uri)
  {
    before <= after && forall i | |before| <= i < |after| :: after[i].DidClose? && after[i].uri != uri
  }

  /** Closes of others, to make room for a new document, and then what is told of it. */
  ghost predicate TellsAfter(c: Config, s: Option<DocumentState>, uri: Uri, text: Text, before: seq<Notification>, after: seq<Notification>)
  {
    exists middle, more ::
      OnlyCloses(before, middle, uri) && (s.Some? ==> middle == before) && after == middle + more && Tells(c, s, uri, text, more)
  }

  lemma TellsNow(c: Config, s: Option<DocumentState>, uri: Uri, text: Text, before: seq<Notification>, middle: seq<Notification>, more: seq<Notification>)
    requires OnlyCloses(before, middle, uri) && (s.Some? ==> middle == before) && Tells(c, s, uri, text, more)
    ensures TellsAfter(c, s, uri, text, before, middle + more) && (more == [] ==> TellsAfter(c, s, uri, text, before, middle))
  {
    assert middle + [] == middle;
  }

  lemma OnlyClosesJoin(a: seq<Notification>, b: seq<Notification>, c: seq<Notification>, uri: Uri)
    requires OnlyCloses(a, b, uri) && OnlyCloses(b, c, uri)
    ensures OnlyCloses(a, c, uri)
  {
  }

  lemma NoCloses(traffic: seq<Notification>, uri: Uri)
    ensures OnlyCloses(traffic, traffic, uri) && traffic + [] == traffic
  {
  }

  /** Nothing but one document is not more than one. */
  lemma WithinOne(keys: set<Uri>, uri: Uri)
    ensures keys <= {uri} ==> |keys| <= 1
  {
    if keys <= {uri} { assert {uri} == keys + ({uri} - keys); }
  }

  class LspClient {
    const documents: LspDocuments
    const config: Config
    var status: Status
    var server: Option<Mirror>
    /** The notifications of the session so far. */
    ghost var traffic: seq<Notification>
    /** The live requests so far, and whether they were answered. */
    ghost var asked: seq<(Uri, bool)>

    /** The documents open at the server. */
    function Told(): Mirror
      reads this
    {
      if server.Some? then server.value else map[]
    }

    /** Client and server tell the same story. */
    ghost predicate Agreed()
      reads this, documents
    {
      && server.Some? && Sound(config, documents.Contents(), server.value)
      && (config.policy.openClose || server.value == map[])
    }

    ghost predicate Valid()
      reads this, documents
    {
      && documents.maxDocuments == config.maxDocuments >= 1
      && documents.Valid()
      && Routed(config, documents.states)
      && documents.pendingVersions == map[] && (status != Ready ==> documents.states == map[])
      && Replay(config.policy, traffic) == server && AllSuit(config.policy, traffic)
      && (Coherent(config.policy) ==> Agreed())
    }

    constructor (config: Config)
      requires config.maxDocuments >= 1
      ensures Valid() && fresh(documents) && status == Idle && documents.queues == map[] && this.config == config
    {
      this.config := config;
      documents := new LspDocuments(config.maxDocuments);
      status := Idle;
      server := Some(map[]);
      traffic := [];
      asked := [];
    }

    /** Start a session unless the client is ready or has crashed; a start may fail. */
    method EnsureReady() returns (ready: bool)
      requires Valid()
      modifies this
      ensures Valid()
      ensures ready <==> status == Ready
      ensures old(status) == Crashed ==> !ready
      ensures old(status) == Ready ==> ready && server == old(server) && traffic == old(traffic)
      ensures asked == old(asked)
    {
      if status == Ready { return true; }
      if status == Crashed { return false; }
      var started: bool := *;
      server, traffic := Some(map[]), [];
      status := if started then Ready else Crashed;
      return started;
    }

    /** A delivered notification reaches the server; a failed one ends the session. */
    method SendNotification(n: Notification) returns (sent: bool)
      requires documents.Valid() && status == Ready && Replay(config.policy, traffic) == server
      requires AllSuit(config.policy, traffic) && Suits(config.policy, n)
      modifies this, documents
      ensures asked == old(asked)
      ensures sent ==>
        && status == Ready && server == (if old(server).Some? then Apply(config.policy, old(server).value, n) else None) && traffic == old(traffic) + [n]
        && documents.Contents() == old(documents.Contents()) && documents.queues == old(documents.queues)
      ensures documents.uses == old(documents.uses)
      ensures !sent ==>
        && status == Crashed && server == Some(map[]) && traffic == []
        && documents.Contents() == old(documents.Contents()).Clear() && documents.queues == map[]
      ensures Replay(config.policy, traffic) == server && documents.Valid() && AllSuit(config.policy, traffic)
    {
      var delivered: bool := *;
      if delivered {
        server := if server.Some? then Apply(config.policy, server.value, n) else None;
        traffic := traffic + [n];
        assert traffic[..|traffic| - 1] == old(traffic);
        return true;
      }
      MarkTransportFailure();
      return false;
    }

    /** The session is over: nothing is left of it on either side. */
    method MarkTransportFailure()
      requires status == Ready && documents.Valid()
      modifies this, documents
      ensures asked == old(asked)
      ensures status == Crashed && server == Some(map[]) && traffic == [] && documents.uses == old(documents.uses)
      ensures documents.Contents() == old(documents.Contents()).Clear() && documents.queues == map[] && documents.Valid()
    {
      status := Crashed;
      documents.Clear();
      server, traffic := Some(map[]), [];
    }

    /** Bring the server to `text`. On success the table holds the text under a version that has
      * not decreased, and has increased if the text changed; on failure the session is over. */
    method SynchronizeDocument(uri: Uri, text: Text, persistent: bool) returns (ok: bool)
      requires Valid() && status == Ready
      modifies this, documents
      ensures Valid()
      ensures ok <==> status == Ready
      ensures !ok ==> documents.queues == map[]
      ensures ok ==>
        && documents.queues == old(documents.queues)
        && Synchronized(documents.states, uri, text, persistent || WasPersistent(old(documents.states), uri))
        && OnlyDropped(old(documents.states), documents.states, uri)
        && TellsAfter(config, old(Get(documents.states, uri)), uri, text, old(traffic), traffic)
      ensures asked == old(asked)
      ensures documents.uses == old(documents.uses) + if ok then [uri] else []
      ensures ok && uri in old(documents.states) ==>
        && documents.states.Keys == old(documents.states.Keys)
        && VersionAdvanced(old(documents.states[uri]), documents.states[uri])
    {
      hide Sound, Table.Valid, Apply, Replay, OnlyDropped, Routed, OnlyCloses, TellsAfter, Edited;
      RoutedAt(config, documents.states, uri);
      NoCloses(traffic, uri);
      ghost var before := traffic;
      var previous := if uri in documents.states then Some(documents.states[uri]) else None;
      if previous.Some? && previous.value.text == text && previous.value.languageId == config.language(uri)
         && (previous.value.open || !config.policy.openClose)
      {
        UseAsIs(uri, persistent);
        TellsNow(config, previous, uri, text, before, before, []);
        return true;
      }

      if previous.None? || (config.policy.openClose && !previous.value.open) {
        ok := OpenAnew(uri, text, previous, persistent);
        return ok;
      }

      var version := previous.value.version + 1;
      if config.policy.change != NoSync {
        ghost var content;
        ok, content := SendChange(uri, text, version, previous.value, persistent);
        TellsNow(config, previous, uri, text, before, before, [DidChange(uri, version, content)]);
        return ok;
      }
      CommitSilently(uri, text, version, previous.value.open, persistent);
      TellsNow(config, previous, uri, text, before, before, []);
      return true;
    }

    /** The branch for a document the server does not have: make room if that can be done, then open it. */
    method OpenAnew(uri: Uri, text: Text, previous: Option<DocumentState>, persistent: bool) returns (ok: bool)
      requires Valid() && status == Ready
      requires previous == Get(documents.states, uri)
      requires previous.None? || (config.policy.openClose && !previous.value.open && !InSync(config, previous, uri, text))
      modifies this, documents
      ensures Valid()
      ensures ok <==> status == Ready
      ensures !ok ==> documents.queues == map[]
      ensures ok ==>
        && documents.queues == old(documents.queues)
        && Synchronized(documents.states, uri, text, persistent || WasPersistent(old(documents.states), uri))
        && documents.states[uri].version == (if previous.Some? then previous.value.version else 0) + 1
        && OnlyDropped(old(documents.states), documents.states, uri)
        && (previous.Some? ==> documents.states.Keys == old(documents.states.Keys))
        && TellsAfter(config, previous, uri, text, old(traffic), traffic)
      ensures asked == old(asked)
      ensures documents.uses == old(documents.uses) + if ok then [uri] else []
    {
      hide Sound, Table.Valid, Apply, Replay, OnlyDropped, Routed, OnlyCloses, TellsAfter, Edited;
      OnlyDroppedRefl(documents.states, uri);
      NoCloses(traffic, uri);
      if previous.None? {
        MakeRoom(uri);
        if status != Ready { return false; }
      }
      label room:
      ghost var middle := traffic;
      assert previous.Some? ==> documents.states.Keys + {uri} == documents.states.Keys;
      var version := (if previous.Some? then previous.value.version else 0) + 1;
      if config.policy.openClose {
        ok := SendOpen(uri, text, version, persistent);
        TellsNow(config, previous, uri, text, old(traffic), middle, [DidOpen(uri, config.language(uri), version, text)]);
      } else {
        CommitSilently(uri, text, version, false, persistent);
        TellsNow(config, previous, uri, text, old(traffic), middle, []);
        ok := true;
      }
      if ok { OnlyDroppedTransitive(old(documents.states), old@room(documents.states), documents.states, uri); }
    }

    /** The branches of `synchronizeDocument` that tell the server nothing. */
    method CommitSilently(uri: Uri, text: Text, version: nat, open: bool, persistent: bool)
      requires Valid() && status == Ready && open == config.policy.openClose
      requires if open then config.policy.change == NoSync else uri in documents.states ==> !documents.states[uri].open
      modifies this, documents
      ensures Valid() && status == Ready && documents.queues == old(documents.queues)
      ensures Synchronized(documents.states, uri, text, persistent || WasPersistent(old(documents.states), uri)) && documents.states[uri].version == version
      ensures documents.uses == old(documents.uses) + [uri]
      ensures documents.states.Keys == old(documents.states).Keys + {uri}
      ensures OnlyDropped(old(documents.states), documents.states, uri)
      ensures traffic == old(traffic) && asked == old(asked)
    {
      hide Sound, Table.Valid, Apply, Replay, Table.Commit, OnlyDropped;
      if Coherent(config.policy) { SoundSilent(config, documents.Contents(), server.value, uri, text, version, persistent); }
      CommitFacts(documents.Contents(), uri, text, config.language(uri), version, open, persistent);
      CommitRouted(config, documents.Contents(), uri, text, version, open, persistent);
      documents.Commit(uri, text, config.language(uri), version, open, persistent);
    }

    /** The branch for a document the server already has: only its use is recorded. */
    method UseAsIs(uri: Uri, persistent: bool)
      requires Valid() && status == Ready
      requires uri in documents.states && documents.states[uri].open == config.policy.openClose
      modifies this, documents
      ensures Valid() && status == Ready && documents.queues == old(documents.queues)
      ensures Synchronized(documents.states, uri, old(documents.states[uri].text), persistent || WasPersistent(old(documents.states), uri))
      ensures documents.uses == old(documents.uses) + [uri]
      ensures documents.states.Keys == old(documents.states).Keys && documents.states[uri].version == old(documents.states[uri].version)
      ensures traffic == old(traffic) && asked == old(asked)
      ensures OnlyDropped(old(documents.states), documents.states, uri)
    {
      hide Sound, Table.Valid, Replay, OnlyDropped, Table.Touch, Table.MarkPersistent;
      if Coherent(config.policy) { SoundUse(config, documents.Contents(), server.value, uri); }
      UseFacts(documents.Contents(), uri);
      UseRouted(config, documents.Contents(), uri);
      if persistent {
        documents.MarkPersistent(uri);
      } else {
        documents.Touch(uri);
      }
    }

    ghost predicate Synchronized(states: map<Uri, DocumentState>, uri: Uri, text: Text, persistent: bool)
    {
      && uri in states && states[uri].text == text
      && states[uri].open == config.policy.openClose
      && states[uri].persistent == persistent
    }

    ghost predicate VersionAdvanced(before: DocumentState, after: DocumentState)
    {
      before.version <= after.version && (before.text != after.text ==> before.version < after.version)
    }

    /** The didOpen branch of `synchronizeDocument`. */
    method SendOpen(uri: Uri, text: Text, version: nat, persistent: bool) returns (sent: bool)
      requires Valid() && status == Ready && config.policy.openClose
      requires uri in documents.states ==> !documents.states[uri].open
      modifies this, documents
      ensures Valid()
      ensures sent <==> status == Ready
      ensures !sent ==> documents.queues == map[]
      ensures sent ==>
        && documents.queues == old(documents.queues)
        && Synchronized(documents.states, uri, text, persistent || WasPersistent(old(documents.states), uri)) && documents.states[uri].version == version
        && documents.states.Keys == old(documents.states).Keys + {uri}
        && OnlyDropped(old(documents.states), documents.states, uri)
        && traffic == old(traffic) + [DidOpen(uri, config.language(uri), version, text)]
      ensures asked == old(asked)
      ensures documents.uses == old(documents.uses) + if sent then [uri] else []
    {
      hide Sound, Table.Valid, Apply, Replay, Table.Commit, OnlyDropped, Table.Clear;
      if Coherent(config.policy) {
        SoundPending(config, documents.Contents(), server.value, uri, version);
        SoundOpen(config, documents.Contents().SetPending(uri, version), server.value, uri, text, version, persistent);
      }
      documents.SetPendingVersion(uri, version);
      var note := Notification.DidOpen(uri, config.language(uri), version, text);
      sent := SendAndCommit(note, text, version, true, persistent);
    }

    /** The didChange branch of `synchronizeDocument`. */
    method SendChange(uri: Uri, text: Text, version: nat, previous: DocumentState, persistent: bool)
      returns (sent: bool, ghost content: ContentChange)
      requires Valid() && status == Ready && config.policy.change != NoSync
      requires uri in documents.states && previous == documents.states[uri]
      requires previous.open == config.policy.openClose && version == previous.version + 1
      modifies this, documents
      ensures Valid()
      ensures sent <==> status == Ready
      ensures !sent ==> documents.queues == map[]
      ensures sent ==>
        && documents.queues == old(documents.queues)
        && Synchronized(documents.states, uri, text, persistent || WasPersistent(old(documents.states), uri)) && documents.states[uri].version == version
        && documents.states.Keys == old(documents.states).Keys
        && OnlyDropped(old(documents.states), documents.states, uri)
        && traffic == old(traffic) + [DidChange(uri, version, content)]
      ensures Edited(previous.text, content) == Some(text) && asked == old(asked)
      ensures documents.uses == old(documents.uses) + if sent then [uri] else []
    {
      hide Sound, Table.Valid, Apply, Replay, ApplyChange, ValidEdit, KeepsMost, Table.Commit, OnlyDropped, Table.Clear;
      var changes := Full(text);
      if config.policy.change == IncrementalSync {
        var change, _, _ := IncrementalContentChange(previous.text, text);
        changes := Ranged(change);
      }
      content := changes;
      assert Edited(previous.text, content) == Some(text);
      if Coherent(config.policy) {
        SoundPending(config, documents.Contents(), server.value, uri, version);
        SoundChange(config, documents.Contents().SetPending(uri, version), server.value, uri, text, version, content, persistent);
      }
      documents.SetPendingVersion(uri, version);
      sent := SendAndCommit(Notification.DidChange(uri, version, changes), text, version, previous.open, persistent);
      assert sent ==> documents.states.Keys == old(documents.states).Keys;
    }

    /** The end of both branches: send, commit what was sent, and forget the pending version. */
    method SendAndCommit(note: Notification, text: Text, version: nat, open: bool, persistent: bool) returns (sent: bool)
      requires documents.maxDocuments == config.maxDocuments >= 1 && documents.Valid() && Routed(config, documents.states)
      requires status == Ready && Replay(config.policy, traffic) == server && open == config.policy.openClose
      requires AllSuit(config.policy, traffic) && Suits(config.policy, note) && documents.pendingVersions == map[note.uri := version]
      requires Coherent(config.policy) ==>
        && config.policy.openClose && server.Some? && Apply(config.policy, server.value, note).Some?
        && Sound(config, documents.Contents().Commit(note.uri, text, config.language(note.uri), version, open, persistent), Apply(config.policy, server.value, note).value)
      modifies this, documents
      ensures Valid()
      ensures sent <==> status == Ready
      ensures !sent ==> documents.queues == map[]
      ensures sent ==>
        && documents.queues == old(documents.queues)
        && Synchronized(documents.states, note.uri, text, persistent || WasPersistent(old(documents.states), note.uri))
        && documents.states[note.uri].version == version
        && documents.states.Keys == old(documents.states).Keys + {note.uri}
        && OnlyDropped(old(documents.states), documents.states, note.uri)
        && traffic == old(traffic) + [note]
      ensures asked == old(asked)
      ensures documents.uses == old(documents.uses) + if sent then [note.uri] else []
    {
      hide Sound, Table.Valid, Apply, Replay, Table.Commit, OnlyDropped;
      var uri := note.uri;
      CommitFacts(documents.Contents(), uri, text, config.language(uri), version, open, persistent);
      CommitRouted(config, documents.Contents(), uri, text, version, open, persistent);
      sent := SendNotification(note);
      if sent {
        documents.Commit(uri, text, config.language(uri), version, open, persistent);
      } else {
        NothingIsSound(config, documents.Contents());
      }
      if Coherent(config.policy) { SoundPending(config, documents.Contents(), server.value, uri, version); }
      documents.ClearPendingVersion(uri, version);
    }

    /** The eviction loop in front of a new document: it ends with room for one more, or when every other
      * document has work queued, or with the session. */
    method MakeRoom(uri: Uri)
      requires Valid() && status == Ready && uri !in documents.states
      modifies this, documents
      ensures Valid()
      ensures status != Ready ==> documents.queues == map[]
      ensures status == Ready ==>
        && documents.queues == old(documents.queues)
        && uri !in documents.states && OnlyDropped(old(documents.states), documents.states, uri)
        && (|documents.states| < documents.maxDocuments || documents.states.Keys <= documents.queues.Keys)
        && OnlyCloses(old(traffic), traffic, uri)
      ensures asked == old(asked)
      ensures |old(documents.states)| < documents.maxDocuments ==> documents.states == old(documents.states)
      ensures documents.uses == old(documents.uses)
    {
      hide Sound, Table.Valid, Apply, Replay, Routed, OnlyCloses, Remembered;
      NoCloses(traffic, uri);
      while documents.NeedsCapacity(uri)
        invariant Valid() && status == Ready && documents.queues == old(documents.queues) && documents.uses == old(documents.uses)
        invariant uri !in documents.states && OnlyDropped(old(documents.states), documents.states, uri)
        invariant OnlyCloses(old(traffic), traffic, uri) && asked == old(asked)
        invariant |old(documents.states)| < documents.maxDocuments ==> documents.states == old(documents.states)
        decreases |documents.states|
      {
        ghost var before := traffic;
        var evicted := EvictOneDocument(uri);
        if status == Ready { OnlyClosesJoin(old(traffic), before, traffic, uri); }
        if !evicted { break; }
      }
    }

    /** Close and forget the document whose last use is the oldest, of those that are not `exclude` and have
      * no queued work. */
    method EvictOneDocument(exclude: Uri) returns (evicted: bool)
      requires Valid() && status == Ready
      modifies this, documents
      ensures Valid()
      ensures evicted ==>
        && status == Ready && documents.queues == old(documents.queues)
        && exists uri :: old(documents.OldestUse(uri, exclude)) && documents.states == old(documents.states) - {uri}
                         && traffic == old(traffic) + if old(documents.states)[uri].open then [Notification.DidClose(uri)] else []
      ensures !evicted && status == Ready ==> traffic == old(traffic)
      ensures status == Ready ==> OnlyCloses(old(traffic), traffic, exclude)
      ensures asked == old(asked)
      ensures documents.uses == old(documents.uses)
      ensures status != Ready ==> !evicted && documents.queues == map[]
      ensures !evicted && status == Ready ==>
        documents.Contents() == old(documents.Contents()) && documents.queues == old(documents.queues)
        && forall u | u in documents.states && u != exclude :: u in documents.queues
    {
      hide Sound, Table.Valid, Apply, Replay, Routed;
      var candidate := documents.EvictionCandidate(exclude);
      if candidate.None? {
        forall u | u in documents.states && u != exclude ensures u in documents.queues {
          assert !documents.Contents().Evictable(documents.queues.Keys, exclude, u);
        }
        return false;
      }
      var uri := candidate.value;
      var ticket, _ := documents.Enqueue(uri);
      evicted := CloseDocument(uri, false);
      documents.Settle(uri, ticket);
      if evicted { assert documents.queues == old(documents.queues); }
    }

    /** Close a document at the server if it is open there; then keep its entry or forget it. */
    method CloseDocument(uri: Uri, retainState: bool) returns (ok: bool)
      requires Valid() && status == Ready
      modifies this, documents
      ensures Valid()
      ensures ok <==> status == Ready
      ensures !ok ==> documents.queues == map[]
      ensures ok ==>
        && documents.queues == old(documents.queues)
        && (Coherent(config.policy) ==> uri !in Told())
        && documents.Contents() == (if retainState then old(documents.Contents()).MarkClosed(uri) else old(documents.Contents()).Remove(uri))
        && traffic == old(traffic) + (if uri in old(documents.states) && old(documents.states)[uri].open then [Notification.DidClose(uri)] else [])
      ensures asked == old(asked)
      ensures documents.uses == old(documents.uses) + if ok && retainState && uri in old(documents.states) then [uri] else []
    {
      hide Sound, Table.Valid, Apply, Replay, Remembered;
      if Coherent(config.policy) { SoundAt(config, documents.Contents(), server.value, uri); }
      CloseRouted(config, documents.Contents(), uri);
      if uri !in documents.states {
        assert documents.states - {uri} == documents.states;
        return true;
      }
      if documents.states[uri].open {
        if Coherent(config.policy) { SoundClose(config, documents.Contents(), server.value, uri); }
        var sent := SendNotification(Notification.DidClose(uri));
        if !sent {
          NothingIsSound(config, documents.Contents());
          return false;
        }
      } else if Coherent(config.policy) {
        SoundForget(config, documents.Contents(), server.value, uri);
      }
      if retainState { var _ := documents.MarkClosed(uri); } else { var _ := documents.Remove(uri); }
      return true;
    }

    /** A document nobody asked to keep open is closed, its entry and its cached symbols kept. */
    method CloseTransientDocument(uri: Uri) returns (ok: bool)
      requires Valid() && status == Ready && uri !in documents.queues
      modifies this, documents
      ensures Valid()
      ensures ok <==> status == Ready
      ensures !ok ==> documents.queues == map[]
      ensures ok ==>
        && documents.queues == old(documents.queues)
        && documents.states.Keys == old(documents.states.Keys)
        && (uri in documents.states ==>
              && documents.states[uri].persistent == old(documents.states[uri].persistent)
              && (documents.states[uri].open <==> documents.states[uri].persistent && config.policy.openClose)
              && (documents.states[uri].persistent ==> documents.states[uri].open == old(documents.states[uri].open))
              && documents.states[uri].text == old(documents.states[uri].text)
              && documents.states[uri].cached == old(documents.states[uri].cached))
        && OnlyDropped(old(documents.states), documents.states, uri)
        && traffic == old(traffic) + (if uri in old(documents.states) && old(documents.states)[uri].open && !old(documents.states)[uri].persistent
                                      then [Notification.DidClose(uri)] else [])
      ensures asked == old(asked)
      ensures UsedOnly(old(documents.uses), documents.uses, uri)
    {
      hide Sound, Table.Valid, Replay, Routed;
      RoutedAt(config, documents.states, uri);
      var ticket, _ := documents.Enqueue(uri);
      if uri !in documents.states || documents.states[uri].persistent {
        ok := true;
      } else {
        ok := CloseDocument(uri, true);
      }
      documents.Settle(uri, ticket);
      if ok { assert documents.queues == old(documents.queues); }
    }

    /** `trimDocuments`: evict until the table is within its bound, or until every other document has work
      * queued, or the session is over. */
    method TrimDocuments(exclude: Uri)
      requires Valid() && status == Ready
      modifies this, documents
      ensures Valid()
      ensures status != Ready ==> documents.queues == map[]
      ensures status == Ready ==>
        && documents.queues == old(documents.queues)
        && OnlyDropped(old(documents.states), documents.states, exclude) && Get(documents.states, exclude) == Get(old(documents.states), exclude)
        && (|documents.states| <= documents.maxDocuments || documents.states.Keys <= documents.queues.Keys + {exclude})
        && OnlyCloses(old(traffic), traffic, exclude)
      ensures asked == old(asked)
      ensures |old(documents.states)| <= documents.maxDocuments ==> status == Ready && documents.states == old(documents.states)
      ensures Coherent(config.policy) && status == Ready ==> Get(Told(), exclude) == old(Get(Told(), exclude))
      ensures documents.uses == old(documents.uses)
    {
      hide Sound, Table.Valid, Apply, Replay, Routed, OnlyCloses, Remembered;
      NoCloses(traffic, exclude);
      TellOne(exclude);
      while documents.OverCapacity()
        invariant Valid() && status == Ready && documents.queues == old(documents.queues) && documents.uses == old(documents.uses)
        invariant OnlyDropped(old(documents.states), documents.states, exclude) && Get(documents.states, exclude) == Get(old(documents.states), exclude)
        invariant OnlyCloses(old(traffic), traffic, exclude) && asked == old(asked)
        invariant |old(documents.states)| <= documents.maxDocuments ==> documents.states == old(documents.states)
        decreases |documents.states|
      {
        ghost var before := traffic;
        var evicted := EvictOneDocument(exclude);
        if status == Ready { OnlyClosesJoin(old(traffic), before, traffic, exclude); }
        if !evicted { break; }
      }
      if status == Ready { TellOne(exclude); }
    }

    /** What the server holds of a document is what the table says. */
    lemma TellOne(uri: Uri)
      requires Valid()
      ensures Coherent(config.policy) ==>
        var state := Get(documents.states, uri);
        Get(Told(), uri) == if state.Some? && state.value.open then Some(ServerDocument(state.value.languageId, state.value.version, state.value.text)) else None
    {
      hide Sound, Table.Valid, Replay;
      if Coherent(config.policy) { SoundAt(config, documents.Contents(), server.value, uri); }
    }

    // -------------------------------------------------------------- operations of the client

    /** Afterwards the server holds exactly `text`, if it is told of documents at all, and the table is
      * within its bound. */
    method DidOpenOrChange(uri: Uri, text: Text) returns (ok: bool)
      requires Valid() && documents.queues == map[]
      modifies this, documents
      ensures Valid() && documents.queues == map[]
      ensures ok && status == Ready ==> uri in documents.states && documents.states[uri].text == text && documents.states[uri].persistent
      ensures ok && status == Ready && Coherent(config.policy) && config.policy.openClose ==> uri in Told() && Told()[uri].text == text
      ensures ok ==> |documents.states| <= documents.maxDocuments
      ensures documents.uses == old(documents.uses) + if ok then [uri] else []
      ensures !ok ==> status != Ready && documents.states == map[]
    {
      hide Sound, Table.Valid, Replay, Apply, OnlyDropped, Routed;
      var ready := EnsureReady();
      if !ready { return false; }
      var ticket, _ := documents.Enqueue(uri);
      ok := SynchronizeDocument(uri, text, true);
      documents.Settle(uri, ticket);
      if !ok { return; }
      TrimDocuments(uri);
      TellOne(uri);
      WithinOne(documents.states.Keys, uri);
    }

    /** Afterwards neither side knows the document. */
    method DidClose(uri: Uri) returns (ok: bool)
      requires Valid() && documents.queues == map[]
      modifies this, documents
      ensures Valid() && documents.queues == map[]
      ensures ok ==> uri !in documents.states && (Coherent(config.policy) ==> uri !in Told())
    {
      hide Sound, Table.Valid, Replay, Apply, OnlyDropped, Table.MarkClosed, Table.Touch, Table.MarkPersistent, Routed;
      var ready := EnsureReady();
      if !ready { return false; }
      var ticket, _ := documents.Enqueue(uri);
      ok := CloseDocument(uri, false);
      documents.Settle(uri, ticket);
    }

    /** A live request: no answer, or the server's answer for the text it holds. */
    method RequestDocumentSymbols(uri: Uri) returns (answer: Option<Symbols>)
      modifies this`asked
      ensures uri in Told() && answer.Some? ==> answer.value == config.outline(Told()[uri].text, Told()[uri].languageId)
      ensures asked == old(asked) + [(uri, answer.Some?)]
    {
      var answered: bool := *;
      asked := asked + [(uri, answered)];
      if !answered { return None; }
      if uri in Told() { return Some(config.outline(Told()[uri].text, Told()[uri].languageId)); }
      var any: Symbols := *;
      return Some(any);
    }

    /** A cached answer for the text is given without a request. Otherwise one is made, unless the session is
      * over, and its answer is given. */
    ghost predicate AnsweredFrom(s: Option<DocumentState>, uri: Uri, text: Text, before: seq<(Uri, bool)>, after: seq<(Uri, bool)>, symbols: Option<Symbols>)
      reads this
    {
      if s.Some? && s.value.text == text && s.value.languageId == config.language(uri) && s.value.cached.Some?
      then symbols == Some(s.value.cached.value.value) && after == before
      else after == before + [(uri, symbols.Some?)] || (status != Ready && symbols.None? && after == before)
    }

    /** Cached or requested, an answer is always the one a fresh request for `text` would give. The document
      * is in the table with that text, and open exactly if someone else asked for it to be kept open. */
    method DocumentSymbols(uri: Uri, text: Text) returns (symbols: Option<Symbols>)
      requires Valid() && documents.queues == map[]
      modifies this, documents
      ensures Valid() && documents.queues == map[]
      ensures Coherent(config.policy) && config.policy.openClose && symbols.Some? ==> symbols.value == config.outline(text, config.language(uri))
      ensures status == Ready ==>
        && uri in documents.states && documents.states[uri].text == text
        && documents.states[uri].persistent == WasPersistent(old(documents.states), uri)
      ensures Coherent(config.policy) && status == Ready ==>
        (uri in Told() <==> WasPersistent(old(documents.states), uri) && config.policy.openClose) && (uri in Told() ==> Told()[uri].text == text)
      ensures UsedOnly(old(documents.uses), documents.uses, uri) && (symbols.Some? ==> documents.uses != old(documents.uses))
      ensures |documents.states| <= documents.maxDocuments
      ensures AnsweredFrom(old(if status == Ready then Get(documents.states, uri) else None), uri, text, old(asked), asked, symbols)
    {
      hide Sound, Table.Valid, Replay, Apply, OnlyDropped, Routed, Remembered, UsedOnly;
      UsedOnlyJoins(documents.uses, documents.uses, documents.uses, uri);
      var ready := EnsureReady();
      if !ready { return None; }
      var ticket, _ := documents.Enqueue(uri);
      symbols := SymbolsInQueue(uri, text);
      documents.Settle(uri, ticket);
      if status != Ready { return; }
      ghost var used := documents.uses;
      CloseAndTrim(uri);
      UsedOnlyJoins(old(documents.uses), used, documents.uses, uri);
    }

    /** What `documentSymbols` does behind its queue. */
    method CloseAndTrim(uri: Uri)
      requires Valid() && status == Ready && documents.queues == map[] && uri in documents.states
      modifies this, documents
      ensures Valid() && documents.queues == map[]
      ensures status == Ready ==>
        && uri in documents.states && documents.states[uri].text == old(documents.states[uri].text)
        && documents.states[uri].persistent == old(documents.states[uri].persistent)
      ensures Coherent(config.policy) && status == Ready ==>
        && (uri in Told() <==> documents.states[uri].persistent && config.policy.openClose)
        && (uri in Told() ==> Told()[uri].text == documents.states[uri].text)
      ensures UsedOnly(old(documents.uses), documents.uses, uri)
      ensures |documents.states| <= documents.maxDocuments
      ensures asked == old(asked)
    {
      hide Sound, Table.Valid, Replay, Apply, OnlyDropped, Routed, Remembered, UsedOnly;
      var closed := CloseTransientDocument(uri);
      if !closed { return; }
      TrimDocuments(uri);
      TellOne(uri);
      WithinOne(documents.states.Keys, uri);
    }

    /** The queued part of `documentSymbols`. */
    method SymbolsInQueue(uri: Uri, text: Text) returns (symbols: Option<Symbols>)
      requires Valid() && status == Ready
      modifies this, documents
      ensures Valid()
      ensures status == Ready ==> documents.queues == old(documents.queues)
      ensures status != Ready ==> documents.queues == map[]
      ensures Coherent(config.policy) && config.policy.openClose && symbols.Some? ==> symbols.value == config.outline(text, config.language(uri))
      ensures status == Ready ==> uri in documents.states && documents.states[uri].text == text
      ensures status == Ready ==> documents.states[uri].persistent == WasPersistent(old(documents.states), uri)
      ensures UsedOnly(old(documents.uses), documents.uses, uri) && (symbols.Some? ==> documents.uses != old(documents.uses))
      ensures AnsweredFrom(old(Get(documents.states, uri)), uri, text, old(asked), asked, symbols)
    {
      hide Sound, Table.Valid, Replay, Remembered, AllSuit, Routed, Apply;
      if Coherent(config.policy) {
        SoundAt(config, documents.Contents(), server.value, uri);
        SoundUse(config, documents.Contents(), server.value, uri);
      }
      if uri in documents.states { UseRouted(config, documents.Contents(), uri); }
      if uri in documents.states && documents.states[uri].text == text && documents.states[uri].languageId == config.language(uri) {
        var cached := documents.CachedSymbols(uri, documents.states[uri].version);
        if cached.Some? { return cached; }
      }
      symbols := FreshSymbols(uri, text);
    }

    method FreshSymbols(uri: Uri, text: Text) returns (symbols: Option<Symbols>)
      requires Valid() && status == Ready
      modifies this, documents
      ensures Valid()
      ensures status == Ready ==> documents.queues == old(documents.queues)
      ensures status != Ready ==> documents.queues == map[]
      ensures Coherent(config.policy) && config.policy.openClose && symbols.Some? ==> symbols.value == config.outline(text, config.language(uri))
      ensures status == Ready ==> uri in documents.states && documents.states[uri].text == text
      ensures status == Ready ==> documents.states[uri].persistent == WasPersistent(old(documents.states), uri)
      ensures UsedOnly(old(documents.uses), documents.uses, uri) && (symbols.Some? ==> documents.uses != old(documents.uses))
      ensures asked == old(asked) + [(uri, symbols.Some?)] || (status != Ready && symbols.None? && asked == old(asked))
    {
      hide Sound, Table.Valid, Replay, OnlyDropped, TellsAfter, Remembered, Routed, Apply, VersionAdvanced, AllSuit;
      var synchronized := SynchronizeDocument(uri, text, false);
      if !synchronized { return None; }
      if Coherent(config.policy) { SoundAt(config, documents.Contents(), server.value, uri); }
      var version := documents.states[uri].version;
      symbols := RequestDocumentSymbols(uri);
      if symbols.Some? {
        if Coherent(config.policy) { SoundCache(config, documents.Contents(), server.value, uri, version, symbols.value); }
        CacheRouted(config, documents.Contents(), uri, version, symbols.value);
        var _ := documents.CacheSymbols(uri, version, symbols.value);
      }
    }

    /** One best-effort message of a shutdown: it reaches the server or is lost. */
    method SendWhileStopping(n: Notification)
      requires Replay(config.policy, traffic) == server && AllSuit(config.policy, traffic) && Suits(config.policy, n)
      modifies this`server, this`traffic
      ensures Replay(config.policy, traffic) == server && AllSuit(config.policy, traffic)
      ensures server == old(server) || server == (if old(server).Some? then Apply(config.policy, old(server).value, n) else None)
    {
      var delivered: bool := *;
      if delivered {
        server := if server.Some? then Apply(config.policy, server.value, n) else None;
        traffic := traffic + [n];
        assert traffic[..|traffic| - 1] == old(traffic);
      }
    }

    /** Orderly stop: one didClose for each document the table says is open, lost messages or not, and
      * none of them illegal at a server in agreement; then the session is gone on both sides, and after
      * a crash too the next use starts another. */
    method Shutdown() returns (ghost told: seq<Notification>)
      requires Valid() && documents.queues == map[]
      modifies this, documents
      ensures Valid() && documents.queues == map[]
      ensures status == Stopped
      ensures server == Some(map[]) && documents.states == map[]
      ensures forall n :: n in told <==> n.DidClose? && n.uri in old(documents.states) && old(documents.states)[n.uri].open
    {
      hide Sound, Table.Valid;
      status := Stopped;
      told := [];
      ghost var open := set u | u in documents.states && documents.states[u].open;
      if Coherent(config.policy) { OpenAtServer(config, documents.Contents(), server.value); }
      var rest := documents.OpenUris();
      while rest != {}
        invariant status == Stopped && Replay(config.policy, traffic) == server && AllSuit(config.policy, traffic)
        invariant rest != {} ==> config.policy.openClose
        invariant documents.Valid()
        invariant rest <= open && forall n :: n in told <==> n.DidClose? && n.uri in open - rest
        invariant Coherent(config.policy) ==> server.Some? && rest <= server.value.Keys
        decreases rest
      {
        var uri :| uri in rest;
        SendWhileStopping(Notification.DidClose(uri));
        told := told + [Notification.DidClose(uri)];
        rest := rest - {uri};
      }
      documents.Clear();
      server, traffic := Some(map[]), [];
      NothingIsSound(config, documents.Contents());
    }
  }
}
