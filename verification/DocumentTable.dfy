/** The bounded document table of one language client: src/lsp/documents.ts, lines 6-158.
  *
  * `Table` is the table as a value, with one function per operation; `LspDocuments` is the
  * object whose methods update it in place and are proved against those functions. */
module DocumentTable {
  import opened Utf16
  import opened Wrappers

  type Uri = string
  type LanguageId = string

  /** A documentSymbol answer, kept as the server sent it. */
  datatype Symbols = Symbols(items: seq<string>)
  datatype CacheEntry = CacheEntry(version: nat, value: Symbols)

  datatype DocumentState = DocumentState(
    text: Text, languageId: LanguageId, version: nat, open: bool, persistent: bool, lastUsed: nat,
    cached: Option<CacheEntry>)

  datatype Table = Table(states: map<Uri, DocumentState>, pending: map<Uri, nat>, clock: nat) {
    /** Stamps are distinct and not in the future; a cached answer carries the entry's own version. */
    ghost predicate Valid()
    {
      && (forall u | u in states :: states[u].lastUsed <= clock)
      && (forall u | u in states && states[u].cached.Some? :: states[u].cached.value.version == states[u].version)
      && (forall u, v | u in states && v in states && u != v :: states[u].lastUsed != states[v].lastUsed)
    }

    /** Replace one entry and stamp it with the next clock value. */
    function Stamp(uri: Uri, state: DocumentState): (t: Table)
      requires Valid()
      requires state.cached.Some? ==> state.cached.value.version == state.version
      ensures t.Valid()
    {
      Table(states[uri := state.(lastUsed := clock + 1)], pending, clock + 1)
    }

    function Commit(uri: Uri, text: Text, languageId: LanguageId, version: nat, open: bool, persistent: bool): (t: Table)
      requires Valid()
      ensures t.Valid()
    {
      var previous := if uri in states then Some(states[uri]) else None;
      var sameContent := previous.Some? && previous.value.text == text && previous.value.languageId == languageId;
      Stamp(uri, DocumentState(
        text, languageId, version, open,
        persistent || (previous.Some? && previous.value.persistent), 0,
        if sameContent && previous.value.cached.Some? then Some(CacheEntry(version, previous.value.cached.value.value)) else None))
    }

    function MarkPersistent(uri: Uri): (t: Table)
      requires Valid()
      ensures t.Valid()
    {
      if uri in states then Stamp(uri, states[uri].(persistent := true)) else this
    }

    function MarkClosed(uri: Uri): (t: Table)
      requires Valid()
      ensures t.Valid()
    {
      if uri in states then Stamp(uri, states[uri].(open := false, persistent := false)) else this
    }

    function Touch(uri: Uri): (t: Table)
      requires Valid()
      ensures t.Valid()
    {
      if uri in states then Stamp(uri, states[uri]) else this
    }

    function CacheSymbols(uri: Uri, version: nat, value: Symbols): (t: Table)
      requires Valid()
      ensures t.Valid()
    {
      if uri in states && states[uri].version == version
      then Stamp(uri, states[uri].(cached := Some(CacheEntry(version, value)))) else this
    }

    function Remove(uri: Uri): (t: Table)
      requires Valid()
      ensures t.Valid()
    {
      Table(states - {uri}, pending, clock)
    }

    function SetPending(uri: Uri, version: nat): (t: Table)
      requires Valid()
      ensures t.Valid()
    {
      Table(states, pending[uri := version], clock)
    }

    function ClearPending(uri: Uri, version: nat): (t: Table)
      requires Valid()
      ensures t.Valid()
    {
      if uri in pending && pending[uri] == version then Table(states, pending - {uri}, clock) else this
    }

    /** The clock survives a reset. */
    function Clear(): (t: Table)
      ensures t.Valid()
    {
      Table(map[], map[], clock)
    }

    /** `uri` is the least recently used document that is not `exclude` and has no queued work. */
    ghost predicate EvictionChoice(queued: set<Uri>, exclude: Uri, uri: Uri)
    {
      && Evictable(queued, exclude, uri)
      && forall u | Evictable(queued, exclude, u) && u != uri :: states[uri].lastUsed < states[u].lastUsed
    }

    predicate Evictable(queued: set<Uri>, exclude: Uri, uri: Uri)
    {
      uri in states && uri != exclude && uri !in queued
    }

    /** The choice is a function of the table: insertion order of the map plays no part. */
    lemma EvictionChoiceUnique(queued: set<Uri>, exclude: Uri, u: Uri, v: Uri)
      requires EvictionChoice(queued, exclude, u) && EvictionChoice(queued, exclude, v)
      ensures u == v
    {
    }
  }

  // ---------------------------------------------------------------- uses

  /** When a document was used last, counted from one; 0 if never. */
  function LastUse(uses: seq<Uri>, uri: Uri): nat
  {
    if uses == [] then 0 else if uses[|uses| - 1] == uri then |uses| else LastUse(uses[..|uses| - 1], uri)
  }

  /** The stamps tell the order in which the documents were used last. */
  ghost predicate Remembered(t: Table, uses: seq<Uri>)
  {
    t.clock == |uses| && forall u | u in t.states :: t.states[u].lastUsed == LastUse(uses, u)
  }

  lemma StampIsUse(t: Table, uses: seq<Uri>, uri: Uri, state: DocumentState)
    requires t.Valid() && Remembered(t, uses) && (state.cached.Some? ==> state.cached.value.version == state.version)
    ensures Remembered(t.Stamp(uri, state), uses + [uri])
  {
    assert (uses + [uri])[..|uses|] == uses;
  }

  /** All that changed from `before` to `after` is that `uri` was used. */
  ghost predicate UsedOnly(before: seq<Uri>, after: seq<Uri>, uri: Uri)
  {
    before <= after && forall i | |before| <= i < |after| :: after[i] == uri
  }

  lemma UsedOnlyJoins(a: seq<Uri>, b: seq<Uri>, c: seq<Uri>, uri: Uri)
    ensures UsedOnly(a, a, uri)
    ensures UsedOnly(a, b, uri) && UsedOnly(b, c, uri) ==> UsedOnly(a, c, uri) && (b != a ==> c != a)
  {
  }

  class LspDocuments {
    var states: map<Uri, DocumentState>
    /** Last queued operation of each URI that still has work. */
    var queues: map<Uri, nat>
    var pendingVersions: map<Uri, nat>
    var clock: nat
    var tickets: nat
    const maxDocuments: nat
    /** Every use of a document so far: a synchronisation, a hit or a store of its symbols, a close that keeps it. */
    ghost var uses: seq<Uri>

    function Contents(): Table
      reads this
    {
      Table(states, pendingVersions, clock)
    }

    ghost predicate Valid()
      reads this
    {
      Contents().Valid() && Remembered(Contents(), uses)
    }

    constructor (maxDocuments: nat)
      ensures Valid() && Contents() == Table(map[], map[], 0) && queues == map[] && uses == [] && this.maxDocuments == maxDocuments
    {
      this.states := map[];
      this.queues := map[];
      this.pendingVersions := map[];
      this.clock := 0;
      this.tickets := 0;
      this.uses := [];
      this.maxDocuments := maxDocuments;
    }

    /** The synchronous head of `enqueue`: take a ticket and learn whom to wait for. */
    method Enqueue(uri: Uri) returns (ticket: nat, after: Option<nat>)
      modifies this`queues, this`tickets
      ensures ticket == old(tickets) && tickets == ticket + 1
      ensures after == if uri in old(queues) then Some(old(queues)[uri]) else None
      ensures queues == old(queues)[uri := ticket]
    {
      after := if uri in queues then Some(queues[uri]) else None;
      ticket := tickets;
      tickets := tickets + 1;
      queues := queues[uri := ticket];
    }

    /** The `finally` of `enqueue`: the last operation of a URI takes its queue away. */
    method Settle(uri: Uri, ticket: nat)
      modifies this`queues
      ensures queues == if uri in old(queues) && old(queues)[uri] == ticket then old(queues) - {uri} else old(queues)
      ensures old(queues) == map[uri := ticket] ==> queues == map[]
    {
      if uri in queues && queues[uri] == ticket { queues := queues - {uri}; }
    }

    method NextClock() returns (next: nat)
      modifies this`clock
      ensures next == clock == old(clock) + 1
    {
      clock := clock + 1;
      next := clock;
    }

    method Commit(uri: Uri, text: Text, languageId: LanguageId, version: nat, open: bool, persistent: bool)
      requires Valid()
      modifies this`states, this`clock, this`uses
      ensures Valid() && Contents() == old(Contents()).Commit(uri, text, languageId, version, open, persistent)
      ensures uses == old(uses) + [uri]
    {
      var previous := if uri in states then Some(states[uri]) else None;
      var sameContent := previous.Some? && previous.value.text == text && previous.value.languageId == languageId;
      var stamp := NextClock();
      var cached: Option<CacheEntry> := None;
      if sameContent && previous.value.cached.Some? {
        cached := Some(CacheEntry(version, previous.value.cached.value.value));
      }
      states := states[uri := DocumentState(
        text, languageId, version, open, persistent || (previous.Some? && previous.value.persistent), stamp, cached)];
      StampIsUse(old(Contents()), old(uses), uri, states[uri]);
      uses := uses + [uri];
    }

    method MarkPersistent(uri: Uri)
      requires Valid()
      modifies this`states, this`clock, this`uses
      ensures Valid() && Contents() == old(Contents()).MarkPersistent(uri)
      ensures uses == old(uses) + if uri in old(states) then [uri] else []
    {
      if uri in states {
        var stamp := NextClock();
        states := states[uri := states[uri].(persistent := true, lastUsed := stamp)];
        StampIsUse(old(Contents()), old(uses), uri, states[uri]);
        uses := uses + [uri];
      }
    }

    method MarkClosed(uri: Uri) returns (found: bool)
      requires Valid()
      modifies this`states, this`clock, this`uses
      ensures Valid() && Contents() == old(Contents()).MarkClosed(uri)
      ensures uses == old(uses) + if found then [uri] else []
      ensures found <==> uri in old(states)
    {
      if uri !in states { return false; }
      var stamp := NextClock();
      states := states[uri := states[uri].(open := false, persistent := false, lastUsed := stamp)];
      StampIsUse(old(Contents()), old(uses), uri, states[uri]);
      uses := uses + [uri];
      return true;
    }

    method Touch(uri: Uri)
      requires Valid()
      modifies this`states, this`clock, this`uses
      ensures Valid() && Contents() == old(Contents()).Touch(uri)
      ensures uses == old(uses) + if uri in old(states) then [uri] else []
    {
      if uri in states {
        var stamp := NextClock();
        states := states[uri := states[uri].(lastUsed := stamp)];
        StampIsUse(old(Contents()), old(uses), uri, states[uri]);
        uses := uses + [uri];
      }
    }

    /** A hit for the entry's own version, and a hit counts as a use. */
    method CachedSymbols(uri: Uri, version: nat) returns (value: Option<Symbols>)
      requires Valid()
      modifies this`states, this`clock, this`uses
      ensures Valid() && Contents() == if value.Some? then old(Contents()).Touch(uri) else old(Contents())
      ensures uses == old(uses) + if value.Some? then [uri] else []
      ensures value.Some? <==> uri in old(states) && old(states)[uri].cached.Some? && old(states)[uri].version == version
      ensures value.Some? ==> value.value == old(states)[uri].cached.value.value
    {
      if uri !in states || states[uri].cached.None? || states[uri].cached.value.version != version { return None; }
      value := Some(states[uri].cached.value.value);
      Touch(uri);
    }

    method CacheSymbols(uri: Uri, version: nat, value: Symbols) returns (stored: bool)
      requires Valid()
      modifies this`states, this`clock, this`uses
      ensures Valid() && Contents() == old(Contents()).CacheSymbols(uri, version, value)
      ensures uses == old(uses) + if stored then [uri] else []
      ensures stored <==> uri in old(states) && old(states)[uri].version == version
    {
      if uri !in states || states[uri].version != version { return false; }
      var stamp := NextClock();
      states := states[uri := states[uri].(cached := Some(CacheEntry(version, value)), lastUsed := stamp)];
      StampIsUse(old(Contents()), old(uses), uri, states[uri]);
      uses := uses + [uri];
      return true;
    }

    method Remove(uri: Uri) returns (found: bool)
      requires Valid()
      modifies this`states
      ensures Valid() && Contents() == old(Contents()).Remove(uri)
      ensures found <==> uri in old(states)
    {
      found := uri in states;
      states := states - {uri};
    }

    method SetPendingVersion(uri: Uri, version: nat)
      requires Valid()
      modifies this`pendingVersions
      ensures Valid() && Contents() == old(Contents()).SetPending(uri, version)
    {
      pendingVersions := pendingVersions[uri := version];
    }

    method ClearPendingVersion(uri: Uri, version: nat)
      requires Valid()
      modifies this`pendingVersions
      ensures Valid() && Contents() == old(Contents()).ClearPending(uri, version)
    {
      if uri in pendingVersions && pendingVersions[uri] == version {
        pendingVersions := pendingVersions - {uri};
      }
    }

    method Clear()
      requires Valid()
      modifies this`states, this`queues, this`pendingVersions
      ensures Valid() && Contents() == old(Contents()).Clear() && queues == map[]
    {
      states, queues, pendingVersions := map[], map[], map[];
    }

    predicate NeedsCapacity(uri: Uri)
      reads this
    {
      uri !in states && |states| >= maxDocuments
    }

    predicate OverCapacity()
      reads this
    {
      |states| > maxDocuments
    }

    /** The document whose last use is the oldest, of those free to be evicted, if any is free. */
    method EvictionCandidate(exclude: Uri) returns (candidate: Option<Uri>)
      requires Valid()
      ensures candidate.Some? ==> Contents().EvictionChoice(queues.Keys, exclude, candidate.value)
      ensures candidate.Some? ==> OldestUse(candidate.value, exclude)
      ensures candidate.None? <==> forall u :: !Contents().Evictable(queues.Keys, exclude, u)
    {
      candidate := None;
      var rest := states.Keys;
      while rest != {}
        invariant rest <= states.Keys
        invariant candidate.None? ==> forall u | Contents().Evictable(queues.Keys, exclude, u) :: u in rest
        invariant candidate.Some? ==>
          && Contents().Evictable(queues.Keys, exclude, candidate.value) && candidate.value !in rest
          && forall u | Contents().Evictable(queues.Keys, exclude, u) && u != candidate.value && u !in rest ::
               states[candidate.value].lastUsed < states[u].lastUsed
        decreases rest
      {
        var uri :| uri in rest;
        rest := rest - {uri};
        if uri == exclude || uri in queues {
          continue;
        }
        if candidate.None? || states[uri].lastUsed < states[candidate.value].lastUsed {
          candidate := Some(uri);
        }
      }
    }

    /** `uri` is free to be evicted, and every other such document has been used since its last use. */
    ghost predicate OldestUse(uri: Uri, exclude: Uri)
      reads this
    {
      && Contents().Evictable(queues.Keys, exclude, uri)
      && forall u | Contents().Evictable(queues.Keys, exclude, u) && u != uri :: LastUse(uses, uri) < LastUse(uses, u)
    }

    method OpenUris() returns (open: set<Uri>)
      ensures open == set u | u in states && states[u].open
    {
      open := set u | u in states && states[u].open;
    }
  }
}
