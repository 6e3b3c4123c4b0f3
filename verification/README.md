# Agent tools: a verified model

The repository is a set of tools for a coding agent. This project models its self-contained
engines in Dafny and proves what they promise. `dafny verify dfyconfig.toml` checks everything.

| modules | engine |
|---|---|
| `TextEdits`, `DocumentTable`, `LspProtocol`, `DocumentSync`, `DocumentTasks`, `DocumentOrder`, `DocumentEntries`, `DocumentRuns`, `DocumentGuarantees`, `DocumentAnswers`, `DocumentTrims` | the language client keeps a bounded table of documents and tells a server about them |
| `Json`, `StableJson`, `StableJsonCode`, `KeyOrder`, `SchemaEvaluation`, `SchemaReferences`, `SchemaModes`, `SchemaConformance`, `SchemaReports`, `SchemaReportOrder`, `SchemaGrounded`, `SchemaCycles`, `SchemaValidator`, `SchemaStrengthening`, `StrengthenedRuns` | the JSON Schema validator, and the stricter schema of complete configurations |
| `Pruning`, `PruneLog`, `PruneHistory`, `PruneCommands` | removing tool transactions from a conversation, and the log of prunes and restores |
| `SourceIndex`, `SourceEncoding` | UTF-16 and UTF-8 coordinates of a source text |
| `OutputText`, `OutputCapture`, `OutputView`, `OutputShown`, `OutputPreview`, `OutputReport` | bounded capture of a command's output and what the model is shown of it |
| `Telemetry` | the run log with its lazy writer |
| `ConfigTemplate`, `PathList`, `PathListGrammar`, `DiagnosticDiff` | configuration values, path lists, and the change of diagnostics by an edit |

`Utf16`, `Strings` and `Wrappers` are shared.

## How to read it

Code that works step by step is a method or a class here, proved against a specification
function; what the code promises is then proved of that function. Both readings of document
synchronisation are modelled. `DocumentSync` is the client object running one operation at a time.
`DocumentTasks` is the same code cut at every `await`, with any number of operations
interleaved. `DocumentOrder` and `DocumentEntries` hold the invariants that need nothing of the
server, `DocumentRuns` the one about agreement, and `DocumentGuarantees` and `DocumentAnswers` the theorems; `DocumentTrims`
adds what callers do after their operation, the trims and the transient closes. The server
is the set of documents it would hold under LSP 3.17, sections "Text Documents", "Position" and
"Text Document Synchronization": an illegal notification, or one the server did not announce to take,
has no successor.

A schema is a JSON value, as in the code. `SchemaEvaluation` is the report of one validation,
`SchemaModes` relates the two ways of running it, and `SchemaConformance` says what a schema asks
without reference to either, following JSON Schema draft-07 (core section 8.3, validation
section 6); `SchemaReports` says what a report lists, and `SchemaReportOrder` in which order. References may be cyclic, so everything is stated for every bound on the length of
a chain of references; a longer chain counts as a throw, as a stack overflow is. `SchemaGrounded`
says which schemas cannot throw, and that for those the bound plays no part; `SchemaCycles`, that where nothing is missing these
are the ones whose references do not hand a value back to the schema it came from.

Parameters stand for what is foreign: regular expressions, the text of a number, the streaming
decoder, token counts, folding white space in messages, the shell. Whether a notification is sent
and whether a write succeeds is left open in every case.

## What turned out differently

Some promises hold only under a condition. It is stated exactly, as an equivalence, but where a line
below says that it is sufficient.

- Client and server agree over every run if and only if the server is told of openings exactly when
  it is told of changes. A server may announce one without the other (src/lsp/client.ts:946-947),
  and then two operations suffice to break the agreement: `DocumentGuarantees.InStepExactlyWhenCoherent`.
- A server that is told of openings but not of changes answers for stale text:
  `DocumentAnswers.AnswersTrueExactly`.
- The two modes of the validator can part when collecting all errors throws: a dangling reference
  behind an earlier error is reached by one mode only (`SchemaValidator.ModesPartOnThrow`). That a schema
  is grounded is sufficient for them to agree on every value: `SchemaGrounded.GroundedDecides`.
- Canonical text is injective except for infinities, which are written `null`:
  `StableJsonCode.InfinityEqualsNull`.
- Requiring all fixed properties replaces `required`. For the replaced list the exact condition is that
  it named own properties: `SchemaStrengthening.RequiredFollowsExactly`. A schema may also refer to a
  `properties` object as if it were a schema; that no reference does is sufficient, and
  `SchemaStrengthening.ReferenceIntoProperties` shows one that does and is not strengthened.
- The `head` of a capture need not be the start of the output: a short character can slip in after a
  longer one that did not fit: `OutputCapture.HeadIsPrefixExactly` and `OutputCapture.HeadCanSkip`.
- The preview of a capture repeats the overlap of head and tail when the output is longer than the head
  and shorter than both together (`OutputCapture.PreviewIsStreamExactly`). Its size can then make it pass
  for the whole output, and so can characters that replace invalid bytes, which are longer than what they
  replace: `OutputCapture.MistakenForWholeExactly`, with `OutputCapture.OneMoreThanTheHead` and
  `OutputCapture.ReplacedBytesAreMistaken`.
- The key by which diagnostics are compared does not tell source and code apart when one holds a bar.
  That neither does is sufficient (`DiagnosticDiff.KeyTellsApart`, `DiagnosticDiff.KeyConfuses`).
- A byte budget below 43 is exceeded by the truncation marker itself: `OutputView.LimitHoldsExactly`.

## Model

| member | source | states |
|---|---|---|
| `DocumentGuarantees.InStepExactlyWhenCoherent` | src/lsp/client.ts:510-608 | Over every run of interleaved operations, no notification is illegal at the server, and every document without a notification under way is open there exactly when the table says so, with the same text and version: if and only if the server is told of openings exactly when it is told of changes |
| `DocumentGuarantees.QuietMeansAgreement` | src/lsp/client.ts:510-608 | When all operations have ended, table and server agree on every document |
| `DocumentGuarantees.OutOfStep` | src/lsp/client.ts:541-571 | For every other capability, a run of two operations that breaks the agreement |
| `DocumentGuarantees.ArrivalOrder` | src/lsp/documents.ts:36-46 | Whatever the server can do: in every run, operations on one URI run one at a time, in the order they were asked for |
| `DocumentAnswers.AnswersTrueExactly` | src/lsp/client.ts:385-407 | A server that is told of openings answers in every interleaving for the text asked about if and only if it is told of changes as well, or has the same symbols for all texts of a document |
| `DocumentAnswers.StaleAnswer` | src/lsp/client.ts:556-572 | The run that shows it: told of no changes, the server answers for the text it was opened with |
| `DocumentAnswers.RunPlain` | src/lsp/client.ts:385-407 | In every run an answer, and every cached one, is what the server computes for some text in the language of the file |
| `DocumentTrims.TrimmedWhenQuiet` | src/lsp/client.ts:575-585 | In every interleaving, once all operations and the trims that follow them have ended, the table is within its bound |
| `DocumentTrims.NeverStuck` | src/lsp/client.ts:575-593 | Until then an operation can take a step, a queue entry can go, or a trim can go on |
| `DocumentTrims.SessionIsRun` | src/lsp/client.ts:214-227 | With the trims and the transient closes that callers add, the steps of the queues are still a run, so all that holds of runs holds |
| `DocumentTrims.MoveTrims` | src/lsp/client.ts:575-593 | Every step keeps that someone has yet to trim, or that the documents not about to be closed are within the bound |
| `DocumentTrims.RestGoesOn` | src/lsp/client.ts:575-593 | A rest that goes on queues one operation and waits for it, or is done |
| `DocumentOrder.RunOrders` | src/lsp/documents.ts:36-46 | The order of operations, the shape of their waits and the versions they carry hold after every run, whatever the server can do |
| `DocumentOrder.NextOrders` | src/lsp/client.ts:510-608 | Every single step keeps them |
| `DocumentGuarantees.StepsAdvanceVersions` | src/lsp/client.ts:534-571 | Whatever the server can do: in every step of every run, an entry that is kept never gets a lower version, and a new text gets a higher one |
| `DocumentGuarantees.NoWaitCycle` | src/lsp/documents.ts:119-134 | Whatever the server can do: in every run, no operation waits for itself, directly or through others, since an eviction waits only for a close that has no queue in front of it |
| `DocumentGuarantees.WaitsEnd` | src/lsp/documents.ts:36-46 | In every run, the chain of waits from any unfinished operation ends at one that can move |
| `DocumentGuarantees.MovesUnlessWaiting` | src/lsp/client.ts:523-529 | An unfinished operation can move if and only if it waits for no other |
| `DocumentGuarantees.NeverStuck` | src/lsp/client.ts:523-529 | Whatever the server can do: while the client is up and anything is unfinished, some operation can take a step |
| `DocumentRuns.RunInv` | src/lsp/client.ts:510-608 | Where the server is told of openings exactly when it is told of changes, the agreement invariant holds after every run |
| `DocumentRuns.NextKeeps` | src/lsp/client.ts:510-608 | Every single step keeps the agreement invariant |
| `DocumentRuns.OpenKeeps` | src/lsp/client.ts:534-554 | Opening, with its pending version and its confirmation still to come, keeps it |
| `DocumentRuns.ChangeKeeps` | src/lsp/client.ts:558-571 | So does a change, whole or incremental |
| `DocumentRuns.CloseKeeps` | src/lsp/client.ts:595-608 | So does a close, which keeps or forgets the entry |
| `DocumentRuns.MakeRoomKeeps` | src/lsp/client.ts:523-529 | So does an eviction queued by another operation |
| `DocumentRuns.ConfirmKeeps` | src/lsp/client.ts:777-786 | So does learning that a notification was sent |
| `DocumentRuns.AnswerKeeps` | src/lsp/client.ts:395-401 | So does the arrival of symbols, which are cached only for the version they were computed for |
| `LspProtocol.CoherentCapabilities` | src/lsp/client.ts:931-951 | Exactly which server capabilities tell of openings without changes or of changes without openings |
| `LspProtocol.ContentLeadsTo` | src/lsp/client.ts:558-562 | The content sent for a change takes the server from the old text to the new one, and is an edit of a range if and only if the server announced incremental synchronisation |
| `DocumentEntries.NotificationsSuit` | src/lsp/client.ts:555-562 | In every run, every notification on its way is one the server announced to take: openings and closings, changes, and edits of a range exactly if it asked for those |
| `DocumentEntries.KeptUntilClosed` | src/lsp/documents.ts:63-118 | In every step of every run, a document that somebody keeps open stays so, but for a close, an eviction, a stop or a crash |
| `DocumentEntries.ChangedIsNewest` | src/lsp/documents.ts:63-118 | In every step of every run, an entry that is new or changed is stamped newer than every other, and the others keep their stamps |
| `DocumentEntries.SynchronizedIsKept` | src/lsp/client.ts:510-573 | In every run, a synchronisation that ends well leaves its text in the table, used last, and kept open if that was asked for |
| `DocumentEntries.PendingIsTold` | src/lsp/documents.ts:50-62 | In every run, the version pending about a document is the one the server is being told of, and none is pending otherwise |
| `DocumentEntries.CachedIsAnswered` | src/lsp/client.ts:389-394 | In every run, symbols cached for the text asked about are given at once, and the server is told nothing |
| `DocumentEntries.NextConsiderate` | src/lsp/client.ts:510-608 | Every single step keeps what these rest on |
| `LspProtocol.SoundOpen` | src/lsp/client.ts:534-551 | Committing an opened document and opening it at the server keep table and server in agreement |
| `LspProtocol.SoundChange` | src/lsp/client.ts:558-571 | The same for a change with a higher version |
| `LspProtocol.SoundClose` | src/lsp/client.ts:595-608 | The same for a close, whether the entry is kept or not |
| `LspProtocol.SoundCache` | src/lsp/documents.ts:107-113 | Caching what the server computes for the text of the current version keeps the cache true |
| `DocumentSync.LspClient.SynchronizeDocument` | src/lsp/client.ts:510-573 | One synchronisation, for every server and whatever else is queued: on success the table holds the text as the document used last, the version has not decreased and has increased if the text changed, a document kept open stays so, and other entries were at most evicted; a failed send ends the session on both sides. A document in sync is not sent again; any other is told of by one opening or one change that leads to the text, after closes that made room. All traffic is what the server announced to take, and table and server stay in agreement where they can |
| `DocumentSync.LspClient.EvictOneDocument` | src/lsp/client.ts:581-585 | The document closed is the one whose last use, in the history of all synchronisations, hits, stores and closes, is the oldest of those neither excluded nor with queued work |
| `DocumentSync.LspClient.MakeRoom` | src/lsp/client.ts:523-529 | The eviction loop ends with room for one more document, or when every other document has work queued, or with the session |
| `DocumentSync.LspClient.SendNotification` | src/lsp/client.ts:777-786 | A notification, which must suit what the server announced, reaches it and is taken if it is legal, or the session ends |
| `DocumentSync.LspClient.MarkTransportFailure` | src/lsp/client.ts:848-884 | After a failure nothing of the session is left in table, queues or server |
| `DocumentSync.LspClient.CloseDocument` | src/lsp/client.ts:595-608 | The document is closed at the server, its entry kept or removed |
| `DocumentSync.LspClient.CloseTransientDocument` | src/lsp/client.ts:587-593 | Only a document nobody asked to keep is closed; its entry and cache stay |
| `DocumentSync.LspClient.DidOpenOrChange` | src/lsp/client.ts:214-227 | Run alone, the whole operation leaves the text in the table and at the server, and the table within its bound |
| `DocumentSync.LspClient.DidClose` | src/lsp/client.ts:359-366 | A closed document is in neither table nor server |
| `DocumentSync.LspClient.DocumentSymbols` | src/lsp/client.ts:385-407 | Cached or requested, the answer is that of a fresh request for the text, across changes, transient closing and reopening; afterwards the table holds that text, and the document is open at the server exactly if somebody had asked to keep it open. A cached answer costs no request, and otherwise one is made |
| `DocumentSync.LspClient.CloseAndTrim` | src/lsp/client.ts:402-406 | What it does behind its queue: only a document nobody keeps is closed, and the table is brought within its bound |
| `DocumentSync.LspClient.TrimDocuments` | src/lsp/client.ts:575-579 | The loop evicts until the table is within its bound, or every other document has work queued, or the session is over; the document excluded is untouched on both sides |
| `DocumentSync.LspClient.Shutdown` | src/lsp/client.ts:616-660 | A stop tells the server of every document it has open, no more and no less, and clears both sides, after a crash too |
| `DocumentTable.LspDocuments.Enqueue` | src/lsp/documents.ts:36-46 | A ticket for the URI, and the operation to wait for |
| `DocumentTable.LspDocuments.Settle` | src/lsp/documents.ts:36-46 | The last operation of a URI takes its queue away |
| `DocumentTable.LspDocuments.Commit` | src/lsp/documents.ts:64-77 | The entry with its new version, as the latest use, still kept open if it was; a cached answer survives only for the same content and carries the new version |
| `DocumentTable.StampIsUse` | src/lsp/documents.ts:155-158 | Stamps keep telling the order in which the documents were used last |
| `DocumentTable.LspDocuments.MarkClosed` | src/lsp/documents.ts:86-93 | A closed entry is no longer persistent and keeps its cache |
| `DocumentTable.LspDocuments.CachedSymbols` | src/lsp/documents.ts:100-105 | A hit only for the version of the entry, and a hit counts as a use |
| `DocumentTable.LspDocuments.CacheSymbols` | src/lsp/documents.ts:107-113 | Stored only for the current version |
| `DocumentTable.LspDocuments.ClearPendingVersion` | src/lsp/documents.ts:60-62 | Only the version that is pending is cleared |
| `DocumentTable.LspDocuments.EvictionCandidate` | src/lsp/documents.ts:127-134 | The unique entry with the oldest last use that is not excluded and has no queued work, or none if there is no such entry |
| `DocumentTable.LspDocuments.Clear` | src/lsp/documents.ts:148-152 | A reset forgets everything but the clock |
| `DocumentTable.Table.EvictionChoiceUnique` | src/lsp/documents.ts:127-134 | There is at most one such entry, so the order of the map plays no part |
| `TextEdits.IncrementalContentChange` | src/lsp/documents.ts:161-188 | The change it builds, resolved and applied by the line rules of LSP 3.17, gives exactly the next text, and keeps as much of both ends as possible without cutting a CRLF |
| `TextEdits.EditReachesNext` | src/lsp/documents.ts:161-188 | The same for every edit that cuts no CRLF |
| `TextEdits.ValidEditIsOrdered` | src/lsp/documents.ts:161-188 | Both ends of the range are non-negative and in order |
| `TextEdits.PositionAt` | src/lsp/documents.ts:190-211 | The line and the UTF-16 column of an offset, with the three line endings |
| `TextEdits.PositionRoundTrip` | src/lsp/documents.ts:190-215 | Resolving the position of an offset gives the offset back if and only if it is not inside a CRLF |
| `TextEdits.SplicedText` | src/lsp/documents.ts:179-187 | What a splice of the kept ends and the new middle is |
| `TextEdits.KeptPrefix` | src/lsp/documents.ts:162-165 | The longest common prefix that cuts no CRLF |
| `TextEdits.KeptSuffix` | src/lsp/documents.ts:167-177 | The longest common suffix after it that cuts no CRLF |
| `SourceIndex.Index.constructor` | src/code-index/types.ts:50-83 | The tables agree with the UTF-8 encoding of the text: line starts in bytes and in code units, and the map of offsets unless all is ASCII |
| `SourceIndex.ScanLines` | src/code-index/types.ts:50-81 | The scan finds the starts of all lines in both coordinates, the byte length, and whether all is ASCII |
| `SourceIndex.BuildCharToByte` | src/code-index/types.ts:185-212 | Entry i is the encoded length of the first i code units, with the whole pair when i is inside one |
| `SourceIndex.Index.ByteForChar` | src/code-index/types.ts:93-96 | By table or by the ASCII shortcut, the encoded length of the text before the clamped offset |
| `SourceIndex.Index.LineForByte` | src/code-index/types.ts:98-108 | The binary search is one plus the number of newlines before the byte |
| `SourceIndex.Index.Range` | src/code-index/types.ts:110-119 | The bytes of a span, the line of its first code unit and the line of the last one in it |
| `SourceIndex.EncodeSplits` | src/code-index/types.ts:185-218 | Encoding (section 3 of RFC 3629) distributes over a cut that splits no surrogate pair |
| `SourceEncoding.EncodingIsRead` | src/code-index/types.ts:185-222 | The encoding that is measured can be read back: decoding it gives the text, with U+FFFD for every surrogate that has no partner |
| `SourceEncoding.BytesAreEncoded` | src/bash-tool/output-capture.ts:103-114 | The size that captures and budgets go by is the length of the UTF-8 encoding |
| `SourceIndex.AsciiOffsets` | src/code-index/types.ts:93-96 | The shortcut is right: in ASCII text bytes and code units count alike |
| `SourceIndex.LineOfOffset` | src/code-index/types.ts:98-108 | The byte coordinate and the code-unit coordinate of a place are on the same line |
| `SourceIndex.OffsetsIncrease` | src/code-index/types.ts:185-212 | Offsets never decrease, and each character adds at least one byte |
| `SourceIndex.NewlinesSurviveEncoding` | src/code-index/types.ts:56-76 | A text and its encoding have the same number of newlines |
| `SourceIndex.LineStartsCount` | src/code-index/types.ts:98-108 | Line starts up to an offset are one more than the newlines before it |
| `SchemaValidator.Validate` | src/schema-validator.ts:49-60 | If the schema is grounded for values of this depth, or collecting all errors does not throw for other reasons: either mode accepts exactly the conforming values; one mode reports all errors and the other the first of them |
| `SchemaModes.ModesAgree` | src/schema-validator.ts:103-139 | For every schema, value and bound on references: if collecting all errors does not throw, stopping early reports exactly the first of them |
| `SchemaGrounded.GroundedDecides` | src/schema-validator.ts:103-139 | For a grounded schema, without further condition: neither mode throws, stopping early reports exactly the first error of the full list, the list is empty exactly when the value conforms, and none of it changes with more room for references |
| `SchemaGrounded.GroundedNeverThrows` | src/schema-validator.ts:282-301 | A schema whose candidates and patterns are schemas, and whose references resolve within the bound on all paths that values of this depth can take, makes neither mode throw |
| `SchemaGrounded.GroundedWithMore` | src/schema-validator.ts:292-301 | What is grounded stays so for shallower values and with more room; without a bound on the depth the condition is one on the schema alone, and holds for every depth |
| `SchemaCycles.GroundedExactlyWithoutLoops` | src/schema-validator.ts:103-139 | Of schemas with nothing missing: none hands a value back to itself through references and `anyOf` if and only if each is grounded for values of every depth. References may lead back through properties and items |
| `SchemaCycles.LooplessIsGrounded` | src/schema-validator.ts:282-301 | As many references as there are schemas, once for each level of the value, are then room enough |
| `SchemaCycles.GroundedHasNoLoop` | src/schema-validator.ts:292-301 | A loop on one level is grounded for no value |
| `SchemaCycles.LooplessDecides` | src/schema-validator.ts:103-139 | Without such loops the validator throws in neither mode, the modes agree, and conformance is decided, on every value |
| `SchemaGrounded.MoreFuelChangesNothing` | src/schema-validator.ts:107-108 | For every schema: a run that does not throw is the same with more room for references |
| `SchemaValidator.ModesPartOnThrow` | src/schema-validator.ts:110-126 | Only a throw can make the modes differ, and it does: a value on which stopping early accepts and collecting everything throws |
| `SchemaConformance.EvalDecides` | src/schema-validator.ts:103-139 | For every schema and value: if the run does not throw, the full error list is empty exactly when the value conforms to the schema, said without reference to the evaluation |
| `SchemaConformance.TypeAlone` | src/schema-validator.ts:303-311 | A schema that declares a type accepts exactly the values of that type: an integer is a whole number of ones, an array of types any one of them, and an unknown name nothing |
| `SchemaConformance.TypeDecided` | src/schema-validator.ts:303-311 | The same for any declaration, by a definition that goes by the value and not by the name |
| `SchemaReports.ReportIsExact` | src/schema-validator.ts:103-273 | A full report lists exactly the true complaints about the value and its parts, each with its place, its keyword and what the schema holds under it; a wrong type silences the keywords of the kind, and the branches of anyOf are not reported |
| `SchemaReportOrder.ReportIsOrdered` | src/schema-validator.ts:109-273 | The report is in order: the value itself, keyword by keyword, then its items or properties one after another |
| `SchemaReports.KeywordFinds` | src/schema-validator.ts:107-109 | With distinct keys a keyword is the property of that name |
| `SchemaReports.OwnSchemaFinds` | src/schema-validator.ts:256-258 | A property is judged by what `properties` holds under its own name |
| `SchemaReports.ChildrenFind` | src/schema-validator.ts:255-262 | The subschemas of a keyword are the properties of the object it holds |
| `SchemaReports.LessIsOrder` | src/schema-validator.ts:181-202 | Numbers are in order, between the infinities |
| `SchemaConformance.AnyOfDecides` | src/schema-validator.ts:110-126 | In a run that does not throw, `anyOf` passes exactly when some candidate accepts the value |
| `SchemaConformance.PropertyDecides` | src/schema-validator.ts:254-279 | In a run that does not throw, a property is checked against its own schema, all patterns its name matches, or what is left to the rest |
| `SchemaConformance.DuplicatesDecided` | src/schema-validator.ts:223-225 | `uniqueItems` fails exactly when two items are structurally equal |
| `SchemaConformance.ConstDecided` | src/schema-validator.ts:141-155 | `const` and `enum` compare structurally, up to the order of keys |
| `SchemaValidator.ValidateSchema` | src/schema-validator.ts:103-139 | The recursive validator pushes the errors of the report, answers whether there are none, and throws when the report says so |
| `SchemaValidator.ValidateAnyOf` | src/schema-validator.ts:110-126 | Candidates are tried in order, their own errors dropped |
| `SchemaValidator.ValidateConstAndEnum` | src/schema-validator.ts:141-155 | At most one error for both keywords |
| `SchemaValidator.ValidateString` | src/schema-validator.ts:157-179 | Lengths in UTF-16 units, then the pattern |
| `SchemaValidator.ValidateNumber` | src/schema-validator.ts:181-203 | The three bounds, each reported in order |
| `SchemaValidator.ValidateArray` | src/schema-validator.ts:205-235 | Size and uniqueness, then every item |
| `SchemaValidator.ValidateObject` | src/schema-validator.ts:237-280 | Required names, then every property in its order |
| `SchemaValidator.ValidateProperties` | src/schema-validator.ts:254-279 | The loop over the properties stops at the first error or collects all |
| `SchemaValidator.ValidatePatterns` | src/schema-validator.ts:265-270 | The loop over the patterns, within one property |
| `SchemaValidator.ValidateItems` | src/schema-validator.ts:227-233 | The loop over the items |
| `SchemaValidator.ValidateRequired` | src/schema-validator.ts:245-252 | The loop over the required names |
| `SchemaReferences.ResolveFollows` | src/schema-validator.ts:292-301 | A reference resolves exactly to the schema at the place it names, one property after another, whatever characters the names hold, and otherwise throws |
| `SchemaReferences.TokenReadsName` | src/schema-validator.ts:317-319 | The escapes that paths are printed with are those that references are read with |
| `StableJsonCode.JsonEqualIsStructural` | src/schema-validator.ts:340-348 | Two values have the same canonical text if and only if they are equal up to the order of keys |
| `StableJsonCode.TextDetermines` | src/schema-validator.ts:344-348 | The text determines the value: no two meanings share a text, also inside longer texts |
| `StableJsonCode.MeaningDetermines` | src/schema-validator.ts:344-348 | The meaning determines the text: the order of keys plays no part |
| `StableJsonCode.InfinityEqualsNull` | src/schema-validator.ts:344-348 | A number too large for a double is written `null`, so it equals null: the one way to lose information |
| `StableJson.SortSorts` | src/schema-validator.ts:347 | Keys are sorted by UTF-16 code units |
| `KeyOrder.KeysByCodeUnits` | src/schema-validator.ts:347 | One key comes before another exactly when its UTF-16 code units do |
| `Json.LookupFinds` | src/schema-validator.ts:344-348 | With distinct keys a property is found by its name |
| `SchemaStrengthening.RequireFixedProperties` | src/config-loader.ts:341-351 | The in-place rewriting computes the strengthened schema |
| `SchemaStrengthening.StrengtheningIsSound` | src/config-loader.ts:341-351 | Whatever conforms to the strengthened schema conforms to the original, through `anyOf`, `items` and references into the rewritten root, if `required` lists own properties and no reference takes a `properties` object for a schema |
| `StrengthenedRuns.PassingFollows` | src/config-loader.ts:225-261 | A value that passes the strengthened validator passes the original one: it does not throw there and has no errors |
| `StrengthenedRuns.SchemaSafer` | src/config-loader.ts:341-351 | A full run that does not throw under the strengthened schema does not throw under the original |
| `SchemaStrengthening.ConformsFollows` | src/config-loader.ts:341-351 | The same for every subschema and every bound on references |
| `SchemaStrengthening.ResolveStandsFor` | src/config-loader.ts:341-351 | A reference that resolves in the rewritten root resolves in the original, to the schema the target stands for |
| `SchemaStrengthening.RequiredFollowsExactly` | src/config-loader.ts:345-346 | The rewritten `required` implies the written one if and only if that one lists own properties other than `$schema`, or is left alone |
| `SchemaStrengthening.StrengthenedIsComplete` | src/config-loader.ts:341-351 | A configuration the strengthened schema accepts has every fixed property, at every nested level |
| `SchemaStrengthening.ReferenceIntoProperties` | src/config-loader.ts:341-351 | With a reference to a `properties` object the strengthened schema can accept what the original refuses: a concrete schema and value |
| `SchemaStrengthening.KeywordStrengthened` | src/config-loader.ts:341-351 | Only `required` and `properties` change |
| `Pruning.PruneToolTransactions` | src/prune/prune.ts:81-123 | The loop computes the pruned messages and the three counters |
| `Pruning.FindCompletedToolCallIds` | src/prune/prune.ts:65-79 | The ids that have a call and a result and are not excluded |
| `Pruning.PruneTwice` | src/prune/prune.ts:81-123 | Pruning by A and then by B is pruning once by both: the same messages, and all three counters add up |
| `Pruning.PruneKeepsOthers` | src/prune/prune.ts:81-123 | Exactly the calls and results with these ids go; the others keep their order |
| `Pruning.CompletedAfterPruning` | src/prune/prune.ts:65-123 | Completed ids after pruning are the completed ids less the pruned ones |
| `Pruning.PruningOrphansNothing` | src/prune/prune.ts:81-123 | No tool result loses its call |
| `Pruning.PruneCounts` | src/prune/prune.ts:81-123 | The counters account for every message, call and result that is gone |
| `Pruning.SpeechSurvives` | src/prune/prune.ts:101-114 | No text and no other message is ever lost or reordered |
| `Pruning.ThinkingNeedsCalls` | src/prune/prune.ts:95-110 | A message that loses a call keeps its thinking exactly when another call stays |
| `Pruning.FindCommonPrefixTokens` | src/prune/prune.ts:215-227 | The messages counted are the longest beginning the conversation shares with its pruning |
| `Pruning.PrunedIsSettled` | src/prune/prune.ts:310-314 | Nothing in a pruned conversation would change again |
| `PruneLog.RecordedParses` | src/prune/prune.ts:284-308 | A recorded state is read back as it was written |
| `PruneLog.Strings` | src/prune/prune.ts:305-308 | An array of strings without its repetitions; anything else is malformed |
| `PruneLog.ReadPruneState` | src/prune/prune.ts:125-133 | The newest well-formed state |
| `PruneLog.FindRestorablePruneState` | src/prune/prune.ts:152-173 | The newest prune that no later entry restored |
| `PruneLog.ReducePruneTuiState` | src/prune/tui-state.ts:17-40 | The fold behind the status line |
| `PruneHistory.ReachableIsUndoStack` | agent/extensions/prune.ts:111-239 | In every reachable session every branch reads as an undo stack |
| `PruneHistory.UndoStack` | src/prune/prune.ts:125-173 | What is hidden is what the newest unrestored prune hid; each prune recorded what the one below it hid, and hid more; the prune to restore next is the top |
| `PruneHistory.StepsOnStack` | agent/extensions/prune.ts:160-239 | A prune pushes, a restore pops exactly one, and no other entry changes anything |
| `PruneHistory.StatusLineIsExact` | src/prune/tui-state.ts:17-71 | After every entry the status line has the same hidden calls and the exact number the last change hid or showed |
| `PruneHistory.VisibleAfterSteps` | src/prune/prune.ts:144-150 | After a prune nothing completed is visible; a restore brings back exactly the calls of the prune it restores |
| `PruneHistory.ReachableIsLegal` | agent/extensions/prune.ts:111-239 | Appending, moving to any point of any branch and appending again leaves only branches the commands could have written |
| `PruneHistory.PopUnrestored` | src/prune/prune.ts:152-173 | The restored prune is the last one left, and the others stay |
| `PruneCommands.Branch.RunPrune` | agent/extensions/prune.ts:111-158 | A prune is written exactly when there is something to prune and it is wanted, and it is a step of the history |
| `PruneCommands.Branch.RunRestore` | agent/extensions/prune.ts:160-194 | A restore is written exactly when there is a prune to restore and its calls are still there |
| `PruneCommands.Branch.SelectPrunable` | agent/extensions/prune.ts:211-226 | The candidates are the completed calls not yet hidden, and the preview is what the model will see |
| `PruneCommands.Branch.AppendPruneState` | agent/extensions/prune.ts:228-239 | The entry lists the union and the previous set, each id once |
| `PruneCommands.Sort` | agent/extensions/prune.ts:234-236 | Every id once, in order |
| `OutputCapture.OutputCapture.Finish` | src/bash-tool/output-capture.ts:66-82 | However the stream was cut: total bytes, line count and tail are those of the whole, and a text that fits the head is previewed whole |
| `OutputCapture.OutputCapture.Append` | src/bash-tool/output-capture.ts:47-60 | One chunk more; the file holds the first bytes up to the maximum |
| `OutputCapture.OutputCapture.AppendPreview` | src/bash-tool/output-capture.ts:88-100 | Lines are counted, the head filled up and the tail moved on |
| `OutputCapture.OutputCapture.Count` | src/bash-tool/output-capture.ts:49-57 | The file is the first bytes of the stream up to the maximum |
| `OutputCapture.OutputCapture.LiveText` | src/bash-tool/output-capture.ts:62-64 | The tail of everything so far, for any size the window holds |
| `OutputCapture.HeadIsPrefixExactly` | src/bash-tool/output-capture.ts:95-98 | The head is the longest prefix that fits if and only if no later piece begins with a character that fits where an earlier one did not |
| `OutputCapture.OneByteHead` | src/bash-tool/output-capture.ts:95-98 | One-byte characters always satisfy that |
| `OutputCapture.HeadCanSkip` | src/bash-tool/output-capture.ts:95-98 | For every limit, a stream whose head is not a prefix |
| `OutputCapture.PreviewIsStreamExactly` | src/bash-tool/output-capture.ts:75 | For all streams and chunks, exactly when the preview is the stream: it fits the head, or nothing slipped into the head and the two ends differ and their lengths add up |
| `OutputCapture.MistakenForWholeExactly` | src/bash-tool/output-view.ts:33 | For all decoders, streams and chunks, exactly when the size test takes a preview for the whole output that is not: head and tail, or the one if they are equal, weigh as much as the bytes of the stream, and do not show all of it |
| `OutputCapture.MistakenWhenDecodable` | src/bash-tool/output-view.ts:33 | For a stream that weighs what its text weighs: exactly when the ends differ and overlap |
| `OutputCapture.ReplacedBytesAreMistaken` | src/bash-tool/output-view.ts:33 | For every limit and every decoder that replaces invalid bytes, runs of such bytes that are mistaken for whole although their ends are equal |
| `OutputCapture.OneMoreThanTheHead` | src/bash-tool/output-capture.ts:75 | For every limit such a stream: one character longer than the head |
| `OutputCapture.DecodeJoin` | src/bash-tool/output-capture.ts:59 | Decoding does not depend on where the chunks are cut |
| `OutputText.TakeTailBytes` | src/bash-tool/output-capture.ts:121-135 | The longest suffix within the limit |
| `OutputText.TakeHeadBytes` | src/bash-tool/output-capture.ts:108-119 | The longest prefix within the limit |
| `OutputText.TailFits` | src/bash-tool/output-capture.ts:121-135 | It fits, it is a suffix, and one more character would not fit |
| `OutputText.HeadFits` | src/bash-tool/output-capture.ts:108-119 | It fits, it is a prefix, and one more character would not fit |
| `OutputText.TailOfTail` | src/bash-tool/output-capture.ts:99 | A text cut to its tail before more arrives has the same tail in the end |
| `OutputText.HeadExactly` | src/bash-tool/output-capture.ts:95-98 | What the head becomes piece by piece, in every case |
| `OutputView.MergeRanges` | src/bash-tool/output-view.ts:232-244 | Ranges in order, with gaps between them, covering exactly what the input covers |
| `OutputView.SpreadIsUnique` | src/bash-tool/output-view.ts:232-244 | There is only one such list |
| `OutputView.RenderRanges` | src/bash-tool/output-view.ts:246-261 | The loop renders the lines and the omissions between them |
| `OutputView.PartsReadBack` | src/bash-tool/output-view.ts:246-261 | Every line is shown in its place or counted as omitted, and it is shown exactly when a range covers it |
| `OutputView.PartsAreShown` | src/bash-tool/output-view.ts:248-261 | A line is shown as it is, and an omission with its number |
| `OutputView.LinesAreConserved` | src/bash-tool/output-view.ts:246-261 | Lines shown and lines omitted add up to all lines |
| `OutputView.LinesOfText` | src/bash-tool/output-view.ts:291-293 | The lines of a text are as many as are reported and give the text back |
| `OutputView.LimitHoldsExactly` | src/bash-tool/output-view.ts:299-304 | The result is within the budget if and only if the text was, or the budget has room for the 43 bytes of the marker |
| `OutputView.OmittedBytesAreExact` | src/bash-tool/output-view.ts:160-169 | The number of omitted bytes is exact for every text over the budget |
| `OutputView.EndsAreApart` | src/bash-tool/output-view.ts:129-138 | The head and the tail shown of a text over the budget never overlap |
| `OutputShown.HeadTailShownIs` | src/bash-tool/output-view.ts:129-138 | What is shown of a long text: its longest start within its share without trailing newlines, how many lines are left out, and its longest end within the rest, cut to the budget if need be |
| `OutputShown.EndsShownWhole` | src/bash-tool/output-view.ts:129-138 | With a budget of at least 98 bytes nothing is cut twice: a start of the text, the marker, an end of it |
| `OutputShown.StructuredShownIs` | src/bash-tool/output-view.ts:160-169 | A label, the start of the text, the exact number of bytes left out, its end |
| `OutputShown.LimitedToIs` | src/bash-tool/output-view.ts:299-304 | Over the budget: a fifth of it from the start, the marker, four fifths from the end |
| `OutputPreview.ByteLimitedLines` | src/bash-tool/output-view.ts:263-275 | The longest run of first lines within a budget |
| `OutputPreview.ByteLimitedTailLines` | src/bash-tool/output-view.ts:277-289 | The longest run of last lines within a budget |
| `OutputPreview.DiagnosticWindows` | src/bash-tool/output-view.ts:223-230 | Exactly the lines from two before to three after a diagnostic |
| `OutputPreview.FailurePreview` | src/bash-tool/output-view.ts:140-158 | Without a diagnostic the head and the tail. Otherwise the longest run of first lines within 15 percent of the budget, every window of lines near a diagnostic, and the longest run of last lines within 20 percent, if all of that fits the budget; if it does not, the same with the first and the last window only, cut to the budget |
| `OutputPreview.FailurePreviewUnique` | src/bash-tool/output-view.ts:140-158 | That description leaves nothing open: one text has one preview of its failure |
| `OutputReport.Report` | src/bash-tool/bash-tool.ts:131-145 | From the stream to the report: reported complete or compacted exactly when all is in the file, the preview is as long as the stream, and cleaned it fits the budget; cleaned from the whole output exactly when the preview shows all, which is so when the preview was limited to four budgets and cleaning removed nothing |
| `OutputReport.SmallPreviewIsWhole` | src/bash-tool/output-capture.ts:75 | A preview with room in the head for one more character is the whole text |
| `OutputPreview.CreateView` | src/bash-tool/output-view.ts:28-71 | Within the budget; what fits is shown whole, and of what does not the start is shown before the end: with a label for structured text, with the lines near diagnostics after a failure, and cut to the budget; reported complete or compacted exactly when capture and preview are complete and fit |
| `Telemetry.TelemetryService.OnSessionStart` | src/telemetry/service.ts:207-243 | A new run starts with its header and no calls; the one before is left to close, its report unchanged |
| `Telemetry.TelemetryService.OnToolExecutionStart` | src/telemetry/service.ts:282-305 | A call that starts gets the next number |
| `Telemetry.TelemetryService.OnToolExecutionEnd` | src/telemetry/service.ts:341-382 | A pending call that ends is reported once, with the number of its start |
| `Telemetry.TelemetryService.Append` | src/telemetry/service.ts:476-488 | Queued before the writer is open, written after; what is reported stays what is on disk |
| `Telemetry.TelemetryService.FinishInitialization` | src/telemetry/service.ts:449-474 | After the flush the file holds the header and the queue in order; if a write fails it holds a beginning of them |
| `Telemetry.TelemetryService.Flush` | src/telemetry/service.ts:466-470 | The same, line by line |
| `Telemetry.TelemetryService.WriteToRun` | src/telemetry/service.ts:490-502 | A line is taken, or the current run is disabled |
| `Telemetry.TelemetryService.DisableRun` | src/telemetry/service.ts:504-515 | A disabled run reports nothing, and nothing is pending |
| `Telemetry.TelemetryService.OnSessionShutdown` | src/telemetry/service.ts:385-390 | Pending calls are dropped; the report stays |
| `Telemetry.TelemetryService.StopWriter` | src/telemetry/service.ts:529-533 | A writer that stops keeps its lines |
| `Telemetry.DiskIsIndexed` | src/telemetry/service.ts:282-305 | Calls on disk have distinct numbers in the order they started, and an enabled run with a writer has exactly its report on disk |
| `Telemetry.EndIndexed` | src/telemetry/service.ts:341-382 | A call that ends keeps the numbering sound, recorded or not |
| `Telemetry.StartIndexed` | src/telemetry/service.ts:282-305 | So does a call that starts, also under an id used before |
| `ConfigTemplate.ParseConfigValueTemplate` | src/openai-compatible-provider/config-values.ts:56-103 | The loop from dollar sign to dollar sign computes the template |
| `ConfigTemplate.OnePiece` | src/openai-compatible-provider/config-values.ts:68-100 | What a dollar sign starts: an escape, a variable in braces or bare, or itself |
| `ConfigTemplate.TokenIsRead` | src/openai-compatible-provider/config-values.ts:73-105 | Escapes, variables bare or in braces, braces around no name and lone dollar signs are each read for what they stand, wherever they may stand |
| `ConfigTemplate.EveryTextStarts` | src/openai-compatible-provider/config-values.ts:73-105 | And every text starts with one of them |
| `ConfigTemplate.NamesAreWrittenIn` | src/openai-compatible-provider/config-values.ts:4-5 | Names are made of letters, digits and underscores, and begin with no digit |
| `ConfigTemplate.PrintParses` | src/openai-compatible-provider/config-values.ts:51-113 | Printing a normal template and parsing it gives it back |
| `ConfigTemplate.NormalIsParsed` | src/openai-compatible-provider/config-values.ts:51-113 | Templates without empty or adjacent literals are exactly those the parser produces |
| `ConfigTemplate.ParseIsNormal` | src/openai-compatible-provider/config-values.ts:105-113 | The parser never produces an empty literal or two in a row |
| `ConfigTemplate.FailsExactlyWhenMissing` | src/openai-compatible-provider/config-values.ts:42-44 | Resolution fails if and only if a listed variable is missing |
| `ConfigTemplate.ResolvedInOrder` | src/openai-compatible-provider/config-values.ts:134-150 | A template resolves to a text exactly when the text is what its parts yield, one after another: the value given for a variable, or else that of the process, and never an empty one |
| `ConfigTemplate.ResolveTemplate` | src/openai-compatible-provider/config-values.ts:134-146 | The text, or nothing at the first missing variable |
| `ConfigTemplate.GetTemplateEnvVarNames` | src/openai-compatible-provider/config-values.ts:115-122 | Every variable once, in order of first use |
| `ConfigTemplate.ResolveConfigValueOrThrow` | src/openai-compatible-provider/config-values.ts:10-27 | A template that fails names its missing variables: the error without a cause is never raised |
| `ConfigTemplate.LiteralResolves` | src/openai-compatible-provider/config-values.ts:134-146 | Any text can be configured literally, whatever the environment |
| `PathList.ParsePathList` | src/tool-repair/repair.ts:378-437 | The character loop computes the list or refuses |
| `PathList.WrittenIsRead` | src/tool-repair/repair.ts:378-437 | Every list of non-empty paths within the limit, each bare or in either kind of quotes, with commas or white space between, is read back as it was |
| `PathList.AcceptedIsGood` | src/tool-repair/repair.ts:387-395 | An accepted list has between one path and the limit, none empty |
| `PathListGrammar.ParsesExactly` | src/tool-repair/repair.ts:377-437 | The lists accepted are exactly those of a grammar, with the paths it gives them: pieces plain or quoted, a backslash that stands for itself unless it escapes, at most one comma between two paths and none behind the last, no open quote and no empty path |
| `PathListGrammar.AcceptedIsRead` | src/tool-repair/repair.ts:396-436 | Whatever is accepted is written by the grammar |
| `PathListGrammar.ReadIsAccepted` | src/tool-repair/repair.ts:396-436 | Whatever the grammar writes within the limit is accepted |
| `PathList.TooManyAreRefused` | src/tool-repair/repair.ts:389 | One path more than the limit and the whole list is refused |
| `PathList.RunEscaped` | src/tool-repair/repair.ts:397-412 | Inside quotes, escaping the quote and the backslash gives any path |
| `PathList.Limit` | src/tool-repair/repair.ts:449-451 | The bound is positive: the default stands in for anything else |
| `DiagnosticDiff.SummarizeDiagnostics` | src/lsp/diagnostics.ts:131-157 | Status, totals and the difference to a baseline of the same file and client; new less resolved is after less before |
| `DiagnosticDiff.DiffCounts` | src/lsp/diagnostics.ts:223-246 | New and resolved counts are the two multiset differences of the keys |
| `DiagnosticDiff.CountKeys` | src/lsp/diagnostics.ts:217-221 | Every key with the number of its occurrences |
| `DiagnosticDiff.DiffBalances` | src/lsp/diagnostics.ts:223-246 | For any two lists, new minus resolved equals after minus before, for errors and for warnings |
| `DiagnosticDiff.DiffSwaps` | src/lsp/diagnostics.ts:223-246 | Swapping the lists swaps new and resolved; all are zero exactly when the keys of errors and warnings are the same |
| `DiagnosticDiff.KeyShowsSeverity` | src/lsp/diagnostics.ts:248-250 | A key begins with the mark of its own severity only, whatever else it holds |
| `DiagnosticDiff.KeyTellsApart` | src/lsp/diagnostics.ts:248-250 | Without a bar in source or code, two keys are equal exactly if severity, source, code and folded message are |
| `DiagnosticDiff.KeyConfuses` | src/lsp/diagnostics.ts:248-250 | With one they need not be: two different diagnostics with the same key |
| `DiagnosticDiff.KeysOfSeverity` | src/lsp/diagnostics.ts:223-246 | There are as many keys of a severity as items |

## Left out

- Transports, JSON-RPC, child processes, timers and files: only the success or failure of a send, a request or a write is modelled.
- DocumentAnswers.AnswersTrueExactly: a stop while operations of a live session are in flight is not a step of `DocumentTasks`, which stops as the idle timer does, when all have ended, or after a crash. An operation that waits across a stop may ask a new session about a document it was never told of.
- DocumentGuarantees.InStepExactlyWhenCoherent: likewise for a client that is stopped with operations in flight and then used again.
- `didSave`, pulled diagnostics and the diagnostics ledger: they add no change to table or server beyond a synchronisation.
- Routing of language identifiers: the identifier is a function of the URI.
- A table limit of zero: the configuration schema requires at least one document.
- Wrap-around of the 32-bit entries of the offset map: texts of four gigabytes are out of range.
- Cancellation during the scan of a source text.
- Rejecting unsupported keywords when a schema is compiled, and the wording and pointer text of errors: an error is its path, its keyword and its parameter.
- SchemaConformance.EvalDecides: for values without an own property named `__proto__`. The code looks its schema up with `properties["__proto__"]` (src/schema-validator.ts:258) and finds the prototype of all objects, which passes for a schema without keywords, so that `additionalProperties` does not apply to it. Schemas and references that name `__proto__` are outside the model for the same reason.
- Numbers that are not JSON numbers (NaN): a parsed configuration has none.
- Lone surrogates in strings of schemas, templates and path lists: these are sequences of code points.
- Cost previews, rates and token estimates of a prune: prices are plain arithmetic; the verdict is a parameter of `PruneCommands.Branch.RunPrune`.
- PruneCommands.Sort: the order is that of `Array.prototype.sort`, the algorithm is not.
- Control sequences, progress lines, repeated lines and blank lines in `cleanForModel`, and the header line: formatting; the cleaned text is a parameter of `OutputPreview.CreateView` and a function in `OutputReport.Report`.
- The number of omitted lines in a head-and-tail preview: a line that is cut counts on both sides, so the number is approximate in the code.
- Fractions of budgets as floating-point products: they are taken exactly, rounded as in the code.
- Errors inside the decoder: what it emits may be anything that depends on the bytes so far.
- Telemetry: facts of a call other than its id, number and tool; when the previous run is awaited; lines the operating system loses after the writer took them.
- Commands in configuration values: running the shell and the cache of its answers.
- The other argument repairs in `repair.ts`, and the classification of separators.
- Waiting for newer diagnostics, which is a matter of timers.
- Merging configuration layers, reloading the client manager, approval, rendering, reports and provider registration.
