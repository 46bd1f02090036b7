# Verified models of HushClaw

This project models eight parts of HushClaw, a personal agent runtime, and proves what they keep over
whole runs. `dafny verify dfyconfig.toml` checks all of it.

- **Transcript and passes** (`Transcript`, `Ledger`): the transcript of an agent session, the pass that
  strips calls and results that lost their partner, and the pass that forgets memory-keeping calls.
  Both are defined on messages and reasoned about on the flat run of items a provider sees. The ledger
  follows each user turn's open calls.
- **Agent loop** (`Research`, `Compactor`, `Dispatch`, `AssistantMessages`, `AgentRuntime`): a session object
  whose turns ask a provider, pause for the user, run tool calls in cached, concurrent and serial groups,
  break off for amendments, compact and retry. Provider, tools, clock and user are oracles, so each claim
  is about all of their behaviours. Call ids are distinct within a response and may repeat across
  responses, as the Gemini client's do; claims that need ids that never repeat say so (`Fresh`, `Orderly`).
- **Configuration text** (`TomlValue`, `Toml`, `TomlEdit`, `ConfigEdit`, `ConfigMeaning`): the TOML printer
  against a reader of TOML v1.0.0 (sections "String", "Table", "Array of Tables"), and the line editor
  that changes one key, at text level and at document level.
- **Configuration shapes** (`Connections`, `DeepMerge`): the two-way mapping between connection tables and
  older sections, and the layered merge.
- **Database encryption** (`Encryption`): the rename protocol over a few files per database, with an
  exception or the end of the process allowed at every step.
- **Calendar sync** (`CalDav`): collection tags, sync-token deltas (section 3 of RFC 6578), full scans and
  pruning over one table of rows.
- **Agent registry and loop cache** (`GatewayRegistry`, `AgentPools`).
- **Inbound automation** (`Inbound`): the rule engine, the inbox it reads and the worker that replies.

## Where the code does not give the expected property

Each of these is proved, with the exact condition where there is one.

- An amendment that cuts a round short, in a turn that used only memory-keeping tools, is followed by a
  request whose transcript shows calls without results (`hushclaw/loop.py:1813-1819`,
  `hushclaw/loop.py:1842-1843`). The guard is the `CutRecovery` of `AgentRuntime.AgentLoop.FinishTurn`:
  the last round was cut, the turn has no text, and all its tools keep memory. A turn that starts well
  sends only closed transcripts if and only if no request of it asks on an open transcript, and then
  everything it ran keeps memory (`AgentRuntime.AgentLoop.EventStream`, with the same for paired
  transcripts and new ids); `AssistantMessages.CutRoundPairsIff` gives the request itself.
- A provider that repeats call ids across responses (`hushclaw/providers/gemini_sdk.py:290`) can defeat
  sanitizing. It closes a transcript exactly when no open call has the id of an answered one
  (`Ledger.OpenTurnMendsIff`); an interrupted round that reuses an answered id stays in the transcript, and
  a later compaction leaves it without a result (`Compactor.ReusedIdBreaksPairing`, `Ledger.CutPairsIff`).
  A turn that starts in that state is `Stale`. Without interruptions repeated ids do no harm
  (`AgentRuntime.AgentLoop.RunSession`).
- An unclear or modifying reply to a pause strips the paused calls but keeps them pending, so a
  confirmation after it appends results without calls, unless their ids had been answered before
  (`AssistantMessages.UnclearThenConfirmPairsIff`); a compaction before the next request may cut them away
  again. A pause whose message also has other calls cannot be resumed either
  (`AssistantMessages.PausedMessagePairsIff`). `CannotResume` names both.
- A modifying reply gives every paused post the same text, so two posts can become one key and a
  confirmation then runs it twice (`AgentRuntime.RewriteMakesPostsEqual`). With different keys in the pause
  no key runs twice in a whole turn (`AgentRuntime.RunsNothingTwice`).
- Coalescing a mixed research round drops the calls that are neither searches nor reads
  (`Research.RewriteDropsOtherCalls`).
- The retrying call reaches its "unreachable" end exactly when the first compressible error comes on the
  final attempt (`AgentRuntime.AgentLoop.CallProvider`).
- A printed string with a control character other than newline or tab does not read back
  (`TomlValue.StringRoundTripIff`); a list of tables below a subsection is dropped
  (`Toml.DeepArraysAreDropped`).
- `set_config_value` damages a file when the header of the section has a comment or inner blanks, when the
  key is already a table, or when the entry is written behind an unterminated last line
  (`ConfigMeaning.SettingReads`, `ConfigMeaning.UnterminatedHeaderFails`); in the last case it is not
  idempotent either (`ConfigMeaning.SetTwiceIsSetOnce`).
- Encryption loses the content on a second run not only after a crash between the two renames but also
  after one inside the exception handler, between its removal of the new file and the rename that puts
  the original back (`Encryption.Disk.EncryptThenRerun`); `Encryption.ContentIsLost` runs both. A caught
  exception restores the original only if the handler's own steps succeed.
- A full calendar scan that sees nothing prunes nothing, so rows stay behind when the server becomes
  empty; a delta removes them. A calendar whose fetch failed loses its rows if another calendar was seen
  (`CalDav.CalDavSync.FetchAndUpsert`). A resource with events on both sides of the window's edge is
  stored differently by the two paths (`CalDav.MixedResourceDiffers`). Event ids carry neither calendar
  nor address, so an event held in two calendars has one row and can be lost by a delta
  (`CalDav.SharedEventIsLost`); a table that holds exactly what the server holds exists if and only if no
  event is shared (`CalDav.TableExistsIff`).
- Connection ids collide when a preferred id equals a positional default (`Connections.PreferredIdClashes`);
  the normal form of an account is not a fixpoint when a field is null (`Connections.NormalTwice`).
- `delete_agent` removes configured and domain agents as well, although its documentation says it cannot
  (`GatewayRegistry.Gateway.DeleteAgent`).
- A message that is delivered again becomes unread, so it can be answered again; "at most once" holds for
  each time it becomes open, by a delivery or by the user's hand (`Inbound.Policy.AtMostOnce`,
  `Inbound.AnsweredTwice`).
- The cooldown sees only recent rows with a reply status and their present key
  (`hushclaw/app_connectors/inbound.py:140`). A process that dies after sending leaves the row pending, a
  failure after sending marks it failed, a delivery takes its key and a user's mark its status, and then
  another event is answered at once (`Inbound.TwoCloseReplies`). Two hundred later rows hide it too
  (`Inbound.ListedByRank`). Without these, and while time does not run backwards, replies keep their
  distance (`Inbound.Policy.QuietRepliesKeepDistance`).
- The engine's separate check of `require_allow_actions` can never decide anything (`Inbound.Decide`).

## Model

| member | source | states |
|---|---|---|
| `Transcript.SanitizeItems` | `hushclaw/loop.py:2212-2299` | Seen as a flat run of items, sanitizing removes exactly the calls without a result and the results without an earlier live call; it drops, merges and reorders nothing else. |
| `Transcript.SanitizeTwiceSettles` | `hushclaw/loop.py:2212-2299` | For every transcript, two applications reach a fixpoint whose calls and results have the same ids, each result after its call. |
| `Transcript.SanitizeOnceSuffices` | `hushclaw/loop.py:2212-2299` | One application already gives a paired transcript exactly when every id that is both called and answered is answered after a call. |
| `Transcript.SanitizeKeepsTheRest` | `hushclaw/loop.py:2212-2299` | User messages, text and other blocks survive sanitizing, in order, whatever calls are stripped around them. |
| `Transcript.SanitizeKeepsPaired` | `hushclaw/loop.py:2212-2299` | A transcript that is already paired keeps every item. |
| `Transcript.PruneItems` | `hushclaw/loop.py:2311-2348` | Pruning removes exactly the memory-keeping calls and their results, and none of those calls survives it. |
| `Transcript.PruneKeepsPaired` | `hushclaw/loop.py:2311-2348` | Pruning keeps calls and results paired. |
| `Transcript.SanitizeAndPruneCommute` | `hushclaw/loop.py:2212-2348` | For every transcript, sanitizing and then pruning gives the same flat items as pruning and then sanitizing. |
| `Transcript.PassesShorten` | `hushclaw/loop.py:2212-2348` | Neither pass lengthens the transcript. |
| `Transcript.CleanTranscript` | `hushclaw/loop.py:2230-2299` | The walk of the sanitizing pass computes the specified clean transcript. |
| `Transcript.ForgetTranscript` | `hushclaw/loop.py:2318-2348` | The walk of the pruning pass computes the specified pruned transcript. |
| `Ledger.ClosedIsPaired` | `hushclaw/loop.py:2212-2221` | A transcript whose user turns each answer exactly the calls they made is paired. |
| `Ledger.OpenIsUnanswered` | `hushclaw/loop.py:656-663` | A transcript whose earlier user turns are closed lacks results for its open calls only, and is paired exactly when each open call has the id of an answered one. |
| `Ledger.SanitizeClosesIff` | `hushclaw/loop.py:2212-2299` | For every transcript, one sanitizing pass closes every user turn exactly when no call left open has the id of an answered call and no result belongs to an earlier user turn. |
| `Ledger.OpenTurnMendsIff` | `hushclaw/loop.py:2212-2299` | An interrupted round or an abandoned pause does harm exactly when it leaves a call open whose id was answered before. |
| `Ledger.RecoverableIsMendable` | `hushclaw/loop.py:2212-2299` | When call ids never repeat, everything that crashes, pauses and amendments leave behind is closed by one sanitizing pass. |
| `Ledger.PruneLedger` | `hushclaw/loop.py:2311-2348` | For every transcript, pruning takes the memory-keeping ids out of the open calls and out of the current turn, and changes nothing else about them. |
| `Ledger.CutLedger` | `hushclaw/context/compactor.py:28-36` | Replacing everything before a user turn by notes keeps closed turns closed and the later turns' calls and results. |
| `Ledger.CutPairsIff` | `hushclaw/context/compactor.py:28-36` | Cutting at a user turn leaves a paired transcript exactly when no open call has an id that was answered only in the part cut away. |
| `Research.DropDuplicateCalls` | `hushclaw/loop.py:2374-2388` | Deduplicating a round keeps the first call of each name-and-arguments key, in order, and gives distinct keys. |
| `Research.OrderedUniqueStrings` | `hushclaw/loop.py:2350-2360` | The strings kept are the trimmed non-blank ones, each where it first occurs. |
| `Research.CoalescedCalls` | `hushclaw/loop.py:2362-2470` | After coalescing, ids and keys are distinct and every id is one of the round's own or the merged call's new one. |
| `Research.DuplicatesAskNothingNew` | `hushclaw/loop.py:2374-2388` | Dropping duplicate calls drops no query and no page that was asked for. |
| `Research.SearchRoundKeepsQueries` | `hushclaw/loop.py:2389-2446` | A round of searches only asks for the same distinct queries, in order, after being merged into one research call; numbers and truth values count as their text. |
| `Research.ReadRoundKeepsUrls` | `hushclaw/loop.py:2448-2470` | A round of page reads only asks for the same distinct pages after being merged. |
| `Research.RewriteDropsOtherCalls` | `hushclaw/loop.py:2389-2470` | In a mixed round every call that is neither a search nor a read is dropped exactly when the round is rewritten. |
| `Compactor.CompactMessages` | `hushclaw/context/compactor.py:54-125` | Compaction computes the specified transcript: a prefix that ends before a recent user turn is summarized or blanked, and a failed summary changes nothing. |
| `Compactor.CompactKeepsPairing` | `hushclaw/context/compactor.py:28-52` | For every transcript, compaction keeps closed user turns closed, introduces no id, keeps the newest user turn, and lengthens a transcript by one message at most, and only if it is the first to put a note at its head. |
| `Compactor.CompactLengthens` | `hushclaw/context/compactor.py:100-106` | One old user turn can become two notes, a summary and the working state. |
| `Compactor.ReusedIdBreaksPairing` | `hushclaw/providers/gemini_sdk.py:288-293` | A call id used and answered in one user turn and used again in an interrupted round of the next passes sanitizing unchanged and is left without its result by the next compaction. |
| `Dispatch.SplitRound` | `hushclaw/loop.py:1602-1614` | A round is split into replays of cached keys, concurrent calls and serial calls, each in request order. |
| `Dispatch.CompleteInOrder` | `hushclaw/loop.py:1684-1736` | Collecting concurrent results in any finishing order records the cache, the progress flag and the results by id. |
| `Dispatch.SettleAnyOrder` | `hushclaw/loop.py:1684-1736` | With distinct keys the cache after a round is the same for every finishing order. |
| `Dispatch.SettleOrderMattersForRepeatedKeys` | `hushclaw/loop.py:601-604` | Without distinct keys it is not: two results under one key leave different caches. |
| `Dispatch.FinishingOrderIsIrrelevant` | `hushclaw/loop.py:1684-1736` | Transcript answers, cache and progress after the concurrent calls do not depend on the order in which they finish. |
| `Dispatch.EachCallAnsweredOnce` | `hushclaw/loop.py:1596-1812` | A round answers each requested call exactly once, in the order replays, concurrent, serial. |
| `Dispatch.ExecutedKeys` | `hushclaw/loop.py:1596-1736` | The calls a round executes have pairwise distinct keys, none of them cached before. |
| `Dispatch.TurnAfterRound` | `hushclaw/loop.py:1567-1736` | One more round, raised or not, adds no key twice to what the turn ran, and every replay in it has the content of an execution of its key. |
| `Dispatch.ReplayReturnsFirst` | `hushclaw/loop.py:1621-1628` | A replay answers with the content of that key's only execution in the turn. |
| `AssistantMessages.ResumePairsIff` | `hushclaw/loop.py:1040-1042` | Results appended to a transcript pair it exactly when they are for calls it has and cover the calls it lacks results for. |
| `AssistantMessages.PausedMessagePairsIff` | `hushclaw/loop.py:1544-1551` | Answers to an assistant message pair a closed transcript exactly when every call of the message is answered, now or under the same id before; they close it exactly when every call is answered now. |
| `AssistantMessages.CutRoundPairsIff` | `hushclaw/loop.py:1813-1843` | The recovery request after a round cut short is never on a closed transcript, and on a paired one exactly when the unanswered ids were answered before. |
| `AssistantMessages.UnclearThenConfirmPairsIff` | `hushclaw/loop.py:639-663` | A reply that neither confirms nor cancels lets sanitizing strip the paused calls but keeps them pending; confirming them then appends results without calls, unless every paused id had been answered before. |
| `AssistantMessages.AssistantLedger` | `hushclaw/loop.py:2196-2210` | Appending an assistant message opens exactly its calls, whatever their ids. |
| `AgentRuntime.RunsNothingTwice` | `hushclaw/loop.py:1089-1148` | Confirmed posts and the calls of the rounds never share a key, so with different keys in the pause no key runs twice in a whole turn. |
| `AgentRuntime.RewriteMakesPostsEqual` | `hushclaw/loop.py:654-660` | A modifying reply makes posts that differ only in their text the same call. |
| `AgentRuntime.HardMaxToolRounds` | `hushclaw/loop.py:561-565` | The round limit is between 1 and 20 whatever is configured. |
| `AgentRuntime.SoftMaxToolRounds` | `hushclaw/loop.py:567-571` | The soft limit starts between 1 and the hard limit. |
| `AgentRuntime.AgentLoop.SanitizeContext` | `hushclaw/loop.py:2212-2299` | The session's transcript is replaced by its sanitized form. |
| `AgentRuntime.AgentLoop.MaybeCompact` | `hushclaw/loop.py:448-484` | A budget compaction runs exactly above the threshold and after growth by two messages since the last ineffective one; what it leaves is the compactor's result, and it is counted as effective or not. |
| `AgentRuntime.AgentLoop.RotateCredential` | `hushclaw/loop.py:2097-2114` | The credential index walks the pool cyclically, also when the provider refuses the new one. |
| `AgentRuntime.AgentLoop.CallProvider` | `hushclaw/loop.py:2116-2194` | At most max_retries + 1 requests and one compaction; the exit is the response, the last error, or neither exactly when every answer was a retryable error and the first compressible one came on the final attempt. |
| `AgentRuntime.AgentLoop.DispatchRound` | `hushclaw/loop.py:1596-1826` | What a round leaves in transcript, cache and progress flag, and which calls it starts, is a function of request, cache and tools; no finishing order is an argument of it. |
| `AgentRuntime.AgentLoop.AnswerRound` | `hushclaw/loop.py:1567-1812` | A round that answers all its calls leaves a closed transcript closed, any other leaves calls open; no key runs twice, raised calls included. |
| `AgentRuntime.AgentLoop.RunRounds` | `hushclaw/loop.py:1201-1229` | The turn's loop ends against any provider after at most max_rounds + 1 passes; the soft limit never falls, and at most 40 calls are dispatched. |
| `AgentRuntime.AgentLoop.FinishTurn` | `hushclaw/loop.py:1828-1851` | If the rounds left off from a closed start, the ending leaves every request closed exactly unless an amendment cut the last round short, there is no text and only memory-keeping tools were named; then its first request asks for an answer on the open transcript. |
| `AgentRuntime.AgentLoop.RunTurn` | `hushclaw/loop.py:1150-1850` | A turn that starts closed sends closed transcripts exactly unless it asks for an answer on an open one, and then an amendment ended it and everything it ran keeps memory; it runs at most 40 calls, no key twice even if it fails, and replays answer as the execution of their key did. |
| `AgentRuntime.AgentLoop.EventStream` | `hushclaw/loop.py:968-1160` | The same for a whole turn that can resume what it confirms and does not start on a transcript that sanitizing cannot close; paused calls that are confirmed run first and in order. |
| `AgentRuntime.AgentLoop.RunSession` | `hushclaw/loop.py:968-1850` | Over any run of turns the same holds turn by turn: a turn is cut short exactly when one of its requests asks on an open transcript. No turn slips if ids never repeat, posts are asked for alone, pauses are confirmed or cancelled at once and there is no amendment or no memory-keeping; nor, with repeated ids, if no round is interrupted. Ineffective compactions are at most 1 + effective ones + half of the messages appended. |
| `TomlValue.EscapeIsPerCharacter` | `hushclaw/config/writer.py:22-24` | The three successive replacements escape each character exactly once. |
| `TomlValue.StringRoundTripIff` | `hushclaw/config/writer.py:22-24` | A printed string reads back as itself exactly when newline and tab are its only control characters. |
| `TomlValue.ValueRoundTrip` | `hushclaw/config/writer.py:12-31` | Every plain value reads back from its text as itself, whatever delimited text follows. |
| `Toml.DocumentRoundTrip` | `hushclaw/config/writer.py:43-116` | Printing and reading a document of the supported fragment gives back its data. |
| `Toml.RowsReadBack` | `hushclaw/config/writer.py:116` | The reader recovers every printed line from the joined text. |
| `Toml.PassesCover` | `hushclaw/config/writer.py:54-114` | The printer's separate passes over scalars, tables and arrays of tables together cover every entry once. |
| `Toml.PrintDocument` | `hushclaw/config/writer.py:43-116` | The printing loops produce the specified text, which reads back as the data on the supported fragment. |
| `Toml.DeepArraysAreDropped` | `hushclaw/config/writer.py:79-89` | A list with dictionaries below a subsection leaves no trace in the text. |
| `TomlEdit.EditedReads` | `hushclaw/config/writer.py:196-240` | On lines, setting a key gives the document with that one key set exactly when the name is free, and an unreadable document otherwise. |
| `TomlEdit.SectionsHeadOnce` | `hushclaw/config/writer.py:204-210` | In a document that reads, a section has at most one header. |
| `TomlEdit.RepeatedSectionFails` | `hushclaw/config/writer.py:212-219` | Appending a section that already has a header makes the document unreadable. |
| `ConfigEdit.SetConfigValue` | `hushclaw/config/writer.py:173-240` | A key without a dot is refused; otherwise the written text is the specified line edit of the old text, or a new file. |
| `ConfigEdit.EditSection` | `hushclaw/config/writer.py:228-238` | The first matching line of the section is replaced, else the entry goes in before the next header. |
| `ConfigMeaning.SettingReads` | `hushclaw/config/writer.py:196-240` | The edited text reads as the old data with one key set exactly when the section header is alone on its line, the name is free and the entry is not glued to an unterminated line. |
| `ConfigMeaning.SetKeyReadsBack` | `hushclaw/config/writer.py:196-240` | A settable key reads back as the new value and every other section and key reads as before. |
| `ConfigMeaning.SetTwiceIsSetOnce` | `hushclaw/config/writer.py:196-240` | Setting the same value again leaves the text as it is exactly unless the first edit put the entry behind an unterminated last line. |
| `ConfigMeaning.UnterminatedHeaderFails` | `hushclaw/config/writer.py:236-238` | A file that ends in the section header without a newline reads before the edit and does not read after it. |
| `Encryption.Disk.Export` | `hushclaw/cli/database.py:163-191` | A finished export holds the full content, log included, and the source has it in its main file; an unfinished one leaves the source readable. |
| `Encryption.Disk.ReplaceWithEncrypted` | `hushclaw/cli/database.py:206-228` | However it ends, some file holds the full content; an exception leaves the original restored unless a step of the handler failed too, and every stage of the protocol says which file that is. |
| `Encryption.Disk.EncryptBackups` | `hushclaw/cli/database.py:231-242` | Finished, every listed plaintext backup is encrypted with its own content and the counts agree; interrupted, no backup loses its content and no other file changes. |
| `Encryption.Disk.CmdEncrypt` | `hushclaw/cli/database.py:245-304` | In every outcome the content is in some file; an encrypted live database implies that every plaintext backup is encrypted already. |
| `Encryption.Disk.EncryptThenRerun` | `hushclaw/cli/database.py:258-283` | A second run after any interruption ends with the content encrypted exactly when the interruption left a main file; otherwise no file holds the content any more. |
| `Encryption.ContentIsLost` | `hushclaw/cli/database.py:213-225` | Both losing interruptions happen: the process dies between the renames, or inside the handler; the second run succeeds and the content is gone. |
| `Encryption.Converts` | `hushclaw/cli/database.py:236-241` | One more converted backup keeps all earlier ones converted and the rest untouched. |
| `CalDav.World.DeltaStep` | `hushclaw/connectors/caldav_sync.py:662-695` | Deleting a resource's rows and inserting its present events brings that address up to date without disturbing any other. |
| `CalDav.World.FinishCurrent` | `hushclaw/connectors/caldav_sync.py:697-707` | After a delta that names every changed address, all rows of the calendar are present events and all present events have rows. |
| `CalDav.World.ScanReuse` | `hushclaw/connectors/caldav_sync.py:525-561` | Reusing the rows of a resource with the same entity tag vouches for exactly its present events. |
| `CalDav.World.ScanUpsert` | `hushclaw/connectors/caldav_sync.py:317-329` | Upserting a fetched resource makes its events present and vouched for. |
| `CalDav.World.PruneReflects` | `hushclaw/memory/store.py:3848-3863` | After pruning, the table holds exactly what the server holds, rows of other sources aside. |
| `CalDav.World.NothingSeen` | `hushclaw/memory/store.py:3854-3856` | When nothing was vouched for nothing is pruned, and the table is right only if it holds no synced row. |
| `CalDav.World.ReflectsOnce` | `hushclaw/connectors/caldav_sync.py:208-237` | What the server holds determines the table, so a delta and a full scan with pruning leave the same rows. |
| `CalDav.MixedResourceDiffers` | `hushclaw/connectors/caldav_sync.py:506-508` | A resource with one event in the window and one outside is stored whole by a scan and in part by a delta. |
| `CalDav.TableExistsIff` | `hushclaw/connectors/caldav_sync.py:808-814` | The table can hold exactly what the server holds if and only if no event in the window belongs to two resources. |
| `CalDav.SharedEventIsLost` | `hushclaw/connectors/caldav_sync.py:808-814` | An event held in two calendars shares one row: when the copy that owns the row is deleted, the delta path loses the event and a full scan restores it. |
| `CalDav.CalDavSync.ApplyDelta` | `hushclaw/connectors/caldav_sync.py:626-707` | A finished delta leaves the calendar reflecting the server; one that gives up half way leaves a state from which the full scan still succeeds. |
| `CalDav.CalDavSync.DoSync` | `hushclaw/connectors/caldav_sync.py:239-341` | The loop over calendars keeps the half-way invariant for finished, abandoned and untouched calendars alike. |
| `CalDav.CalDavSync.FetchAndUpsert` | `hushclaw/connectors/caldav_sync.py:208-237` | A finished sync with no failed fetch leaves the table reflecting the server, or stale when the server has become empty; a stopped one leaves the rows of unvisited calendars in place; a calendar whose fetch failed loses its rows. |
| `Connections.AppRoundTrip` | `hushclaw/connections/config.py:51-80` | An app section comes back in normal form: blanks, nulls and unlisted fields dropped, main switches filled in. |
| `Connections.ChannelRoundTrip` | `hushclaw/connections/config.py:82-107` | The same for a channel section. |
| `Connections.AccountRoundTrip` | `hushclaw/connections/config.py:109-118` | The same for mail and calendar accounts, with their defaults filled in. |
| `Connections.RoundTripIff` | `hushclaw/connections/config.py:133-254` | The whole configuration comes back in normal form and in order exactly when no two entries were assigned the same id. |
| `Connections.PreferredIdClashes` | `hushclaw/connections/config.py:216-219` | One preferred mail id `email_2` with two mail accounts makes ids collide. |
| `Connections.NormalTwice` | `hushclaw/connections/config.py:133-254` | The normal form is a fixpoint exactly when no account has a null field. |
| `Connections.ConnectionsToLegacy` | `hushclaw/connections/config.py:31-130` | The mapping loop computes the specified sections. |
| `Connections.LegacyToConnections` | `hushclaw/connections/config.py:133-254` | The mapping loops compute the specified tables, ids assigned as specified. |
| `DeepMerge.DeepMerge` | `hushclaw/config/loader.py:65-72` | The merge loop computes the specified join, in whatever order the keys are visited. |
| `DeepMerge.JoinTwice` | `hushclaw/config/loader.py:65-72` | Merging a layer with itself changes nothing. |
| `DeepMerge.JoinedView` | `hushclaw/config/loader.py:65-72` | At every path the later layer decides what it speaks about and the earlier one the rest. |
| `DeepMerge.LastDefinitionWins` | `hushclaw/config/loader.py:366-385` | Over any stack of layers a path has the value of the last layer that defines it, unless a later layer has a plain value on the way. |
| `DeepMerge.AssociativeIff` | `hushclaw/config/loader.py:65-72` | Merging is associative exactly when no path is a table, then a plain value, then a table that does not cover the first. |
| `DeepMerge.AlignedDoNotClash` | `hushclaw/config/loader.py:65-72` | In particular when no path is a table in one layer and a plain value in the next. |
| `DeepMerge.LoadLayers` | `hushclaw/config/loader.py:366-385` | The configuration is the stack of its four layers whenever the project's own two layers do not clash with the user's. |
| `AgentPools.AgentPool.CollectStale` | `hushclaw/gateway.py:93-105` | Exactly the keys unused for longer than the limit are removed, and their loops closed. |
| `AgentPools.AgentPool.GetOrCreate` | `hushclaw/gateway.py:129-151` | A key that is cached and fresh gets its loop, any other a new one; no other fresh key is affected. |
| `AgentPools.AgentPool.ClearCachedLoops` | `hushclaw/gateway.py:353-358` | Every cached loop is closed and both dictionaries are empty. |
| `AgentPools.AgentPool.EndRun` | `hushclaw/gateway.py:333-344` | A loop whose run ends is closed exactly when its key has left the pool, so no cached loop is closed. |
| `AgentPools.Run` | `hushclaw/gateway.py:84-151` | Over any sequence of requests, collections, clears and run ends, with the clock moving on even within a request, the invariant holds, and without a clear a key used within the limit keeps its loop. |
| `GatewayRegistry.NormalizeTags` | `hushclaw/gateway.py:491-507` | Tags come out trimmed, non-blank and each where it first occurs. |
| `GatewayRegistry.LoadedIff` | `hushclaw/gateway.py:532-575` | Loading gives back the saved definitions exactly when their names are distinct and none is taken. |
| `GatewayRegistry.Gateway.CreateAgent` | `hushclaw/gateway.py:636-670` | A valid new name adds one definition with a pool built from it and saves; anything else changes nothing. |
| `GatewayRegistry.Gateway.UpdateAgent` | `hushclaw/gateway.py:756-799` | Only runtime agents change; the definition and its pool change together and in place. |
| `GatewayRegistry.Gateway.DeleteAgent` | `hushclaw/gateway.py:713-727` | Any agent but the default one is removed from all three dictionaries and from the definitions. |
| `GatewayRegistry.Gateway.RegisterDomainAgent` | `hushclaw/gateway.py:672-694` | A free name gets a domain-owned agent that is not editable; a name some domain already has is left alone. |
| `GatewayRegistry.Gateway.UnregisterDomainAgents` | `hushclaw/gateway.py:696-711` | Exactly the agents of that domain go; runtime definitions and "default" stay. |
| `GatewayRegistry.Restart` | `hushclaw/gateway.py:532-588` | After saving and starting again the same runtime agents are back exactly when no configured agent has one of their names. |
| `GatewayRegistry.Run` | `hushclaw/gateway.py:590-799` | Over any sequence of operations, accepted or rejected, the dictionaries agree, runtime names stay unique and live, only runtime agents are editable, and the file holds the runtime agents. |
| `Inbound.FindMatchingRule` | `hushclaw/app_connectors/inbound.py:153-170` | The scan returns the specified first match. |
| `Inbound.FirstMatchIsFirst` | `hushclaw/app_connectors/inbound.py:153-170` | A match is the first rule that does not skip the event; a denylist hit stands for an ignoring rule. |
| `Inbound.Decide` | `hushclaw/app_connectors/inbound.py:105-151` | The decision scan computes the specified decision. |
| `Inbound.ListEvents` | `hushclaw/memory/store.py:3534-3562` | The listing holds the most recently updated matching rows, latest first, at most 200, and 50 for a limit of 0. |
| `Inbound.ListedByRank` | `hushclaw/app_connectors/inbound.py:252` | A row is on the recent list if at most 200 rows of its connector, itself included, were updated at its time or later, and is hidden if 200 others were updated later. |
| `Inbound.FewHideNone` | `hushclaw/app_connectors/inbound.py:252` | A connector with at most 200 rows hides no earlier reply from a decision. |
| `Inbound.Policy.DecidedReply` | `hushclaw/app_connectors/inbound.py:123-151` | A decision to reply comes from the first match, an enabled rule that asks for one, on a connector with actions allowed; every other listed row with a reply status under its key was updated more than the cooldown before. |
| `Inbound.Policy.ReplyWasDecided` | `hushclaw/app_connectors/inbound.py:242-274` | Each reply of any possible history goes back to an earlier claim of its event, and was decided on in view of the table as it was at that claim. |
| `Inbound.Policy.AtMostOnce` | `hushclaw/app_connectors/inbound.py:264-274` | In any possible history an event has no more replies than it became open, by a delivery or by the user's hand. |
| `Inbound.Policy.QuietRepliesKeepDistance` | `hushclaw/app_connectors/inbound.py:136-151` | Any two replies under one key are more than the later rule's cooldown apart, in every history in which no event that shows a reply or is being answered is delivered again or marked by the user, no death or failure follows a reply, no reply is crowded out of the recent list and time does not run backwards. |
| `Inbound.InboundWorker.ClaimEvent` | `hushclaw/memory/store.py:3609-3649` | Only an unread or classified row can be claimed; it becomes pending under the decision's key. |
| `Inbound.InboundWorker.ExecuteAutoReply` | `hushclaw/app_connectors/inbound.py:281-310` | An attempt sends one reply or none and marks the row replied or failed; if the process dies, before or after sending, the row stays as it was claimed unless it is delivered again meanwhile. A failure after sending marks it failed. |
| `Inbound.InboundWorker.ProcessBatch` | `hushclaw/app_connectors/inbound.py:235-279` | Whatever the attempts come to and whatever arrives meanwhile, a batch takes up every listed unread event unless the process dies, adds only possible steps to the history, and answers an event that is to be answered. |
| `Inbound.Run` | `hushclaw/app_connectors/inbound.py:223-310` | Over any run of arrivals, status changes by the user and batches, dead processes included, every reply is warranted and decided in view of the table at its claim, no event is answered more often than it became open, and replies keep their distance unless one of the named slips occurs. The moments of the steps are given back. |
| `Inbound.TwoCloseReplies` | `hushclaw/app_connectors/inbound.py:136-151` | A death or a failure after a reply, a redelivery of its message meanwhile, or the user marking it as read each lead to two replies at one moment under one key, whatever the positive cooldown. |
| `Inbound.AnsweredTwice` | `hushclaw/memory/store.py:3485-3500` | A message delivered again after its reply is answered again. |
| `Inbound.InboundWorker.UserMarks` | `hushclaw/memory/store.py:3651-3674` | The user may give any existing event any status; its key stays. |

## Left out

- AgentRuntime.AgentLoop.EventStream: the call ids of one response are assumed distinct, hooks, events, perf counters and persistence are no-ops, and the strategy's tool filter is a parameter of the turn.
- AgentRuntime.AgentLoop.RunSession: for repeated ids the condition that can be checked before a run leaves out pauses and memory-keeping as well as amendments and raising tools; other runs are judged turn by turn.
- AgentRuntime.AgentLoop.DispatchRound: an exception in a concurrent tool ends the round before any of its results is appended; the order of persisted tool turns follows completion and is not modelled.
- Research.SearchRoundKeepsQueries: lists and objects given as a query count as blank, and the numeric limits of a merged call are modelled only as far as they are numbers or absent.
- Research.ReadRoundKeepsUrls: lists and objects given as an address count as blank.
- Compactor.CompactMessages: the summarizing request, checkpoints and archiving are one oracle that gives a summary or fails; token counts are an arbitrary function of the messages, and the ratio that makes a compaction ineffective is its default.
- Toml.DocumentRoundTrip: proved on the fragment the printer supports; nulls, non-bare keys, deeper tables and float notation (opaque tokens) are outside it.
- Toml.RowsReadBack: the reader takes one entry per line, bare undotted keys and headers of at most two keys; quoted keys, inline tables, dates, multi-line values, literal `'..'` strings and the `\u` and `\U` escapes are not part of it, and integers with leading zeros are accepted.
- ConfigMeaning.SettingReads: proved for text in which newline is the only line separator and for bare section and field names; a file that holds literal strings or `\u` escapes is outside it, since the reader does not read such a file.
- ConfigMeaning.SetKeyReadsBack: under the same restrictions.
- ConfigMeaning.SetTwiceIsSetOnce: under the same restrictions.
- ConfigEdit.SetConfigValue: what the host's number parsing makes of a value is a parameter, and the file is its text.
- Encryption.Disk.CmdEncrypt: file modes, key storage and the schema migration of an existing database are steps without an effect on content; a file is a name with abstract content.
- CalDav.World.FinishCurrent: like every lemma of `World` and every method of `CalDavSync`, for servers without an event in two resources (`Sound`); for others no table can be the result (`CalDav.TableExistsIff`).
- CalDav.CalDavSync.FetchAndUpsert: the window is fixed, resources have addresses, the server answers truthfully, and recurrence expansion and the server's time filter are given by the data; counts of changed rows are not tracked. An exception on one scanned component, which the program logs and skips, and one inside a delta's upserts are not modelled.
- Connections.RoundTripIff: nested values inside lists are opaque, and a single account given as a table is taken as a list of one.
- DeepMerge.LoadLayers: environment variables and the migrations after the merge are left out.
- AgentPools.AgentPool.GetOrCreate: the semaphore and policy rules are left out.
- GatewayRegistry.Gateway.DeleteAgent: registration itself always succeeds, and the closing of cached loops on registry changes is not tracked here (the pool model is separate).
- GatewayRegistry.Gateway.CreateAgent: a failure to save the file of runtime agents, which the program swallows, is absent.
- Inbound.InboundWorker.ProcessBatch: the user changes statuses between batches, not during one; a reply is decided on the event as it was listed even if the message was delivered again since.
- The network, provider clients, browser control, websockets, OAuth, prompt texts and logging are left out.
- The memory store, outbox, scheduler, command line and server routing would only add easy members.
