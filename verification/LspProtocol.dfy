/** What a language server knows of the client's documents: LSP 3.17, section "Text Document
  * Synchronization". Only the three notifications that carry document content are modelled. */
module LspProtocol {
  import opened DocumentTable
  import opened TextEdits
  import opened Utf16
  import opened Wrappers

  datatype ServerDocument = ServerDocument(languageId: LanguageId, version: nat, text: Text)
  type Mirror = map<Uri, ServerDocument>

  datatype ContentChange = Full(text: Text) | Ranged(change: Change)

  datatype Notification =
    | DidOpen(uri: Uri, languageId: LanguageId, version: nat, text: Text)
    | DidChange(uri: Uri, version: nat, content: ContentChange)
    | DidClose(uri: Uri)

  function Edited(text: Text, content: ContentChange): Option<Text>
  {
    match content
    case Full(t) => Some(t)
    case Ranged(change) => ApplyChange(text, change)
  }

  /** What the client sends to turn `previous` into `next`: the whole text, or one edit. */
  function ContentFor(kind: SyncKind, previous: Text, next: Text, prefix: nat, suffix: nat): ContentChange
    requires prefix + suffix <= |previous| && prefix + suffix <= |next|
  {
    if kind == IncrementalSync
    then Ranged(Change(PositionOf(previous, prefix), PositionOf(previous, |previous| - suffix), next[prefix..|next| - suffix]))
    else Full(next)
  }

  lemma ContentLeadsTo(kind: SyncKind, previous: Text, next: Text, prefix: nat, suffix: nat)
    requires ValidEdit(previous, next, prefix, suffix)
    ensures Edited(previous, ContentFor(kind, previous, next, prefix, suffix)) == Some(next)
    ensures ContentFor(kind, previous, next, prefix, suffix).Ranged? <==> kind == IncrementalSync
  {
    EditReachesNext(previous, next, prefix, suffix);
    hide ApplyChange, PositionOf;
  }

  /** What a server that announced `policy` takes: openings and closings if it asked for them, changes if
    * it asked for them, and edits of a range only if it asked for those. */
  predicate Announced(policy: Policy, n: Notification)
  {
    match n
    case DidChange(_, _, content) => policy.change == IncrementalSync || (policy.change == FullSync && content.Full?)
    case _ => policy.openClose
  }

  /** What the client sends such a server: that, and an edit of a range whenever it may. */
  predicate Suits(policy: Policy, n: Notification)
  {
    Announced(policy, n) && (n.DidChange? ==> (n.content.Ranged? <==> policy.change == IncrementalSync))
  }

  ghost predicate AllSuit(policy: Policy, traffic: seq<Notification>)
  {
    forall n | n in traffic :: Suits(policy, n)
  }

  /** The server after one notification. None is a breach of the protocol: something it did not announce,
    * opening an open document, changing or closing a closed one, a version that does not increase, or a
    * range that does not resolve. */
  function Apply(policy: Policy, m: Mirror, n: Notification): Option<Mirror>
  {
    if !Announced(policy, n) then None
    else match n
    case DidOpen(uri, languageId, version, text) =>
      if uri in m then None else Some(m[uri := ServerDocument(languageId, version, text)])
    case DidChange(uri, version, content) =>
      if uri !in m || version <= m[uri].version then None
      else (match Edited(m[uri].text, content)
            case None => None
            case Some(text) => Some(m[uri := ServerDocument(m[uri].languageId, version, text)]))
    case DidClose(uri) =>
      if uri in m then Some(m - {uri}) else None
  }

  /** The server after a whole session's traffic, if all of it was legal. */
  function Replay(policy: Policy, traffic: seq<Notification>): Option<Mirror>
  {
    if traffic == [] then Some(map[])
    else match Replay(policy, traffic[..|traffic| - 1])
      case None => None
      case Some(m) => Apply(policy, m, traffic[|traffic| - 1])
  }

  // ---------------------------------------------------------------- the server's sync capability

  datatype SyncKind = NoSync | FullSync | IncrementalSync
  datatype SyncCapability =
    | Absent
    | Kind(kind: SyncKind)
    | Options(openClose: Option<bool>, change: Option<SyncKind>)

  datatype Policy = Policy(openClose: bool, change: SyncKind)

  /** src/lsp/client.ts, lines 931-951, without the save options. */
  function SyncPolicy(capability: SyncCapability): Policy
  {
    match capability
    case Absent => Policy(false, NoSync)
    case Kind(kind) => Policy(kind != NoSync, kind)
    case Options(openClose, change) =>
      Policy(openClose == Some(true), if change.Some? then change.value else NoSync)
  }

  /** The server is told of openings exactly when it is told of changes: the policies under
    * which client and server can be kept in agreement. */
  predicate Coherent(policy: Policy)
  {
    policy.openClose <==> policy.change != NoSync
  }

  /** Only an options object can be incoherent, and then only by naming one half without the other. */
  lemma CoherentCapabilities(capability: SyncCapability)
    ensures !Coherent(SyncPolicy(capability)) <==>
            capability.Options? && (capability.openClose == Some(true) <==> capability.change in {None, Some(NoSync)})
  {
  }

  // ---------------------------------------------------------------- what a client step keeps

  datatype Config = Config(
    policy: Policy,
    maxDocuments: nat,
    language: Uri -> LanguageId,                 // the routed language of a file: a function of its path
    outline: (Text, LanguageId) -> Symbols)      // the symbols a server computes from a document

  function Get<V>(m: map<Uri, V>, uri: Uri): Option<V>
  {
    if uri in m then Some(m[uri]) else None
  }

  /** What a client entry says of itself: it has the routed language, and a cached answer is the
    * one the server would give for the entry's own text. A server that is not told of openings
    * reads its own files, so nothing is said of its answers. */
  ghost predicate EntryTrue(c: Config, uri: Uri, s: Option<DocumentState>)
  {
    s.Some? ==>
      && s.value.languageId == c.language(uri)
      && (c.policy.openClose && s.value.cached.Some? ==> s.value.cached.value.value == c.outline(s.value.text, s.value.languageId))
  }

  /** Client and server tell the same story of one document. */
  ghost predicate EntryAgrees(s: Option<DocumentState>, d: Option<ServerDocument>)
  {
    if s.Some? && s.value.open then d == Some(ServerDocument(s.value.languageId, s.value.version, s.value.text)) else d == None
  }

  ghost predicate EntrySound(c: Config, uri: Uri, s: Option<DocumentState>, d: Option<ServerDocument>)
  {
    EntryTrue(c, uri, s) && EntryAgrees(s, d)
  }

  ghost predicate Sound(c: Config, t: Table, m: Mirror)
  {
    t.Valid() && forall u: Uri :: EntrySound(c, u, Get(t.states, u), Get(m, u))
  }

  // What the table operations do to the entry of their own document, and that they touch no other.

  lemma CommitEntry(c: Config, t: Table, uri: Uri, text: Text, version: nat, open: bool, persistent: bool)
    requires t.Valid() && EntryTrue(c, uri, Get(t.states, uri))
    ensures var after := t.Commit(uri, text, c.language(uri), version, open, persistent).states;
            && after - {uri} == t.states - {uri} && uri in after
            && EntryTrue(c, uri, Some(after[uri])) && Get(after, uri) == Some(after[uri])
            && after[uri].text == text && after[uri].version == version && after[uri].open == open && after[uri].languageId == c.language(uri)
  {
  }

  lemma UseEntry(t: Table, uri: Uri)
    requires t.Valid() && uri in t.states
    ensures t.Touch(uri).states == t.states[uri := t.states[uri].(lastUsed := t.clock + 1)]
    ensures t.MarkPersistent(uri).states == t.states[uri := t.states[uri].(lastUsed := t.clock + 1, persistent := true)]
    ensures t.Touch(uri).states - {uri} == t.states - {uri} == t.MarkPersistent(uri).states - {uri}
  {
    hide Table.Valid;
  }

  lemma ClosedEntry(c: Config, t: Table, uri: Uri)
    requires t.Valid() && EntryTrue(c, uri, Get(t.states, uri))
    ensures var after := t.MarkClosed(uri).states;
            after - {uri} == t.states - {uri} && EntrySound(c, uri, Get(after, uri), None)
    ensures var after := t.Remove(uri).states;
            after - {uri} == t.states - {uri} && EntrySound(c, uri, Get(after, uri), None)
  {
  }

  /** What soundness says of one document. */
  lemma SoundAt(c: Config, t: Table, m: Mirror, uri: Uri)
    requires Sound(c, t, m)
    ensures uri in t.states ==> t.states[uri].languageId == c.language(uri)
    ensures uri in m <==> uri in t.states && t.states[uri].open
    ensures uri in m ==> m[uri] == ServerDocument(t.states[uri].languageId, t.states[uri].version, t.states[uri].text)
    ensures c.policy.openClose && uri in t.states && t.states[uri].cached.Some? ==>
      t.states[uri].cached.value.value == c.outline(t.states[uri].text, t.states[uri].languageId)
  {
    assert EntrySound(c, uri, Get(t.states, uri), Get(m, uri));
  }

  lemma SoundEntry(c: Config, t: Table, m: Mirror, uri: Uri)
    requires Sound(c, t, m)
    ensures t.Valid() && EntrySound(c, uri, Get(t.states, uri), Get(m, uri))
  {
  }

  /** Only the entry of `uri` needs looking at after a step that changed only that entry. */
  lemma SoundUpdate(c: Config, t: Table, m: Mirror, uri: Uri, t': Table, m': Mirror)
    requires Sound(c, t, m) && t'.Valid()
    requires t'.states - {uri} == t.states - {uri} && m' - {uri} == m - {uri}
    requires EntrySound(c, uri, Get(t'.states, uri), Get(m', uri))
    ensures Sound(c, t', m')
  {
    hide Table.Valid, EntrySound;
    forall u: Uri ensures EntrySound(c, u, Get(t'.states, u), Get(m', u)) {
      if u != uri {
        OthersUnchanged(t.states, t'.states, uri, u);
        OthersUnchanged(m, m', uri, u);
        assert EntrySound(c, u, Get(t.states, u), Get(m, u));
      }
    }
  }

  lemma OthersUnchanged<V>(m: map<Uri, V>, m': map<Uri, V>, uri: Uri, u: Uri)
    requires m - {uri} == m' - {uri} && u != uri
    ensures Get(m, u) == Get(m', u)
  {
    assert Get(m, u) == Get(m - {uri}, u) == Get(m' - {uri}, u);
  }

  /** Operations that touch neither text, version nor openness. */
  lemma SoundUse(c: Config, t: Table, m: Mirror, uri: Uri)
    requires Sound(c, t, m)
    ensures Sound(c, t.Touch(uri), m) && Sound(c, t.MarkPersistent(uri), m)
  {
    hide Table.Valid, Sound;
    SoundEntry(c, t, m, uri);
    SoundUpdate(c, t, m, uri, t.Touch(uri), m);
    assert EntrySound(c, uri, Get(t.MarkPersistent(uri).states, uri), Get(m, uri));
    hide EntrySound;
    SoundUpdate(c, t, m, uri, t.MarkPersistent(uri), m);
  }

  lemma SoundPending(c: Config, t: Table, m: Mirror, uri: Uri, version: nat)
    requires Sound(c, t, m)
    ensures Sound(c, t.SetPending(uri, version), m) && Sound(c, t.ClearPending(uri, version), m)
  {
    hide Table.Valid, EntrySound;
  }

  /** Opening a document that is not open is legal, and committing it restores agreement. */
  lemma SoundOpen(c: Config, t: Table, m: Mirror, uri: Uri, text: Text, version: nat, persistent: bool)
    requires Sound(c, t, m) && !(uri in t.states && t.states[uri].open) && c.policy.openClose
    ensures var m' := Apply(c.policy, m, DidOpen(uri, c.language(uri), version, text));
            m'.Some? && Sound(c, t.Commit(uri, text, c.language(uri), version, true, persistent), m'.value)
  {
    hide Table.Valid, Sound;
    SoundEntry(c, t, m, uri);
    SoundUpdate(c, t, m, uri, t.Commit(uri, text, c.language(uri), version, true, persistent),
                m[uri := ServerDocument(c.language(uri), version, text)]);
  }

  /** A change whose edit leads to the new text, under a larger version, is legal and restores agreement. */
  lemma SoundChange(c: Config, t: Table, m: Mirror, uri: Uri, text: Text, version: nat, content: ContentChange, persistent: bool)
    requires Sound(c, t, m) && uri in t.states && t.states[uri].open && t.states[uri].version < version
    requires Edited(t.states[uri].text, content) == Some(text) && Announced(c.policy, DidChange(uri, version, content))
    ensures var m' := Apply(c.policy, m, DidChange(uri, version, content));
            m'.Some? && Sound(c, t.Commit(uri, text, c.language(uri), version, true, persistent), m'.value)
  {
    hide Table.Valid, Sound, Edited;
    SoundEntry(c, t, m, uri);
    SoundUpdate(c, t, m, uri, t.Commit(uri, text, c.language(uri), version, true, persistent),
                m[uri := ServerDocument(c.language(uri), version, text)]);
  }

  /** A server that is told nothing stays in agreement with a table that opens nothing. */
  lemma SoundSilent(c: Config, t: Table, m: Mirror, uri: Uri, text: Text, version: nat, persistent: bool)
    requires Sound(c, t, m) && !(uri in t.states && t.states[uri].open)
    ensures Sound(c, t.Commit(uri, text, c.language(uri), version, false, persistent), m)
  {
    hide Table.Valid, Sound;
    SoundEntry(c, t, m, uri);
    SoundUpdate(c, t, m, uri, t.Commit(uri, text, c.language(uri), version, false, persistent), m);
  }

  lemma SoundClose(c: Config, t: Table, m: Mirror, uri: Uri)
    requires Sound(c, t, m) && uri in t.states && t.states[uri].open && c.policy.openClose
    ensures Apply(c.policy, m, DidClose(uri)) == Some(m - {uri})
    ensures Sound(c, t.MarkClosed(uri), m - {uri}) && Sound(c, t.Remove(uri), m - {uri})
  {
    hide Table.Valid, Sound;
    SoundEntry(c, t, m, uri);
    SoundUpdate(c, t, m, uri, t.MarkClosed(uri), m - {uri});
    SoundUpdate(c, t, m, uri, t.Remove(uri), m - {uri});
  }

  lemma SoundForget(c: Config, t: Table, m: Mirror, uri: Uri)
    requires Sound(c, t, m) && !(uri in t.states && t.states[uri].open)
    ensures uri !in m && Sound(c, t.MarkClosed(uri), m) && Sound(c, t.Remove(uri), m)
  {
    hide Table.Valid, Sound;
    SoundEntry(c, t, m, uri);
    SoundUpdate(c, t, m, uri, t.MarkClosed(uri), m);
    SoundUpdate(c, t, m, uri, t.Remove(uri), m);
  }

  lemma SoundCache(c: Config, t: Table, m: Mirror, uri: Uri, version: nat, value: Symbols)
    requires Sound(c, t, m)
    requires c.policy.openClose && uri in t.states ==> value == c.outline(t.states[uri].text, t.states[uri].languageId)
    ensures Sound(c, t.CacheSymbols(uri, version, value), m)
  {
    hide Table.Valid, Sound;
    SoundEntry(c, t, m, uri);
    SoundUpdate(c, t, m, uri, t.CacheSymbols(uri, version, value), m);
  }
}
