# Verified models of the platform's stateful cores

This Dafny project models the parts of the platform that keep state across
steps, crashes and interleavings, and proves what they promise. `dafny verify
dfyconfig.toml` checks the whole project.

| modules | what they model |
|---|---|
| `RunnerProtocol`, `RunnerFanOut`, `RunnerCallbacks`, `RunnerReplay`, `RunnerKeys`, `RunnerRecovery`, `RunnerQuiescence`, `RunnerStranding`, `RunnerServer` | the runner's session protocol: launches that start or join a session, cancels, the goroutine that finishes and calls back, the journals on disk, the death of the process and the replay at startup |
| `SqlSplitter`, `SqlGrammar`, `SqlTrimming`, `SqlIdempotence`, `SqlStatements` | the migration runner's hand-written statement splitter and the token language it implements |
| `Migrations`, `MigrationProgress`, `MigrationBaseline`, `MigrationRunner` | applying migration files once and in order, over runs in which any database call may fail or be the last |
| `GraphTables`, `WorkflowGraph` | saving and loading a workflow's canvas in one transaction |
| `Chunking`, `DocumentIndex`, `DocumentSync` | overlapping chunks, and the incremental document index with calls that fail one by one |
| `WhatsApp`, `WhatsAppFate`, `WhatsAppStore`, `Gateway` | the adapter's echo guard and message store under interleaving, and the send that crosses two services |
| `TokenRefresh` | the web client's single-flight token refresh |
| `Truncation`, `ModelCatalog` | cutting a conversation down in place, and looking a model up by name fragment |
| `TextLines`, `StreamReaders`, `ServerSentEvents` | readers of line-based streams |

`Wrappers`, `Strings` and `DatabaseCalls` hold an option type, a prefix test, and
the outcomes of the database calls a piece of the program is about to make.

Where the program changes state step by step, a class or method has the
program's own steps, and its `ensures` ties the new state to a function of the
old one (`View() == Apply(old(View()), event)`); the lemmas then speak about
that function, over every event sequence.

What the model found, beyond what the code's comments say:

- A run acknowledged by the runner can be lost for ever. `RunnerStranding` gives
  the exact condition, step by step, for a crash to strand nobody: a launch that
  writes no journal needs its run on disk already, a write must succeed and must
  keep every uncalled run that relies on the file it overwrites, and a file may be
  removed only when all who could rely on it were called back (`StepSafeExactly`,
  `NeverStrandedExactly`). `RelaunchRace` and `StartupRace` are complete runs from
  an empty machine that break it. `RunnerRecovery` proves that it is kept when
  journal writes succeed and a session starts only after the listing was taken
  and where no journal is waiting under its file name. The startup code takes the
  listing in a goroutine of its own (services/runner/main.go:161), so this is not
  enforced.
- When file operations succeed, the first launch waits for the recovery, and no
  session still at work has the sanitized name of a new one, every acknowledged
  launch is called back after it was acknowledged, over any number of crashes
  (`EveryLaunchIsCalledBack`).
- A session's key tells work items apart for tickets without a bar and without
  a `review:` prefix. In general two work items share a key exactly in the two
  ways of `KeysCollideExactly`, and the handler accepts requests of both kinds.
- Two processes that start on an empty database at once can mark migrations as
  applied that nobody ever applies (`BaselineRace`, `RaceSkipsFilesForever`):
  the baseline's two reads are not protected against another runner that
  creates the users table in between.
- The ownership guard of SaveGraph protects the other workflow's row but lets
  an edge point at it; such a graph cannot be saved again as it was loaded
  (`GraphClosed`, `ResaveKeepsNodes`).
- The document index stores the new hash before the chunks. A chunk that fails
  to be written is never repaired by syncing the same content again, for new and
  changed documents and by either code path: the attempt that records the hash
  decides for good, and `RightNowOrNever` says when it leaves the document right.
- A WhatsApp message whose outbox row says `failed` may have been sent,
  exactly when the last POST found the account connected and timed out or lost
  its answer (`FailedYetSent`).
- A tool that is started again before it completed leaves its first card
  unfinished for the rest of the stream (`StreamOrphansExactly`).
- `chunkText` covers every character for every overlap that is not negative;
  with a negative one it leaves out the characters between chunks.

## Model

| member | source | states |
|---|---|---|
| RunnerFanOut.StepKeepsConsistent | services/runner/main.go:180-374 | every step of every handler, goroutine, recovery or crash keeps the session table, the key map, the acknowledgements and the callback log consistent, with no hypothesis on writes or timing |
| RunnerFanOut.RunKeepsConsistent | services/runner/main.go:180-374 | the same over every interleaving |
| RunnerFanOut.OneLiveSession | services/runner/main.go:199-225 | in every reachable state at most one session of a key accepts joiners |
| RunnerFanOut.ExactlyOnceFanOut | services/runner/main.go:202-225 | an acknowledged run belongs to one session of its key; that session never calls it twice, and once through has called its subscribers in joining order, this run exactly once |
| RunnerFanOut.OnlySubscribersAreCalled | services/runner/main.go:361-370 | a session calls back only runs that some acknowledged launch put into it |
| RunnerFanOut.FirstAddressIsCalled | services/runner/main.go:202-219 | in every run a session calls a run back at the address of the first launch of it that joined, whatever later launches gave |
| RunnerFanOut.HeldOrCalled | services/runner/main.go:361-370 | in every run, careful or not: a launch acknowledged by this process was called back since, or a goroutine that is not through holds it |
| RunnerFanOut.CountOfDistinct | services/runner/main.go:205-217 | with distinct run ids a run occurs once or not at all |
| RunnerCallbacks.CallbacksTellTheTruth | services/runner/main.go:297-374 | in every run each callback goes to the address of a launch acknowledged under its key; a session's names the work of the launch that started it and says the status it finished with in that process, one replayed from a journal names a launch's repository and ticket, says crashed and has lost the mode |
| RunnerReplay.ReplayExactly | services/runner/main.go:297-330 | left alone, recovery calls exactly the subscribers of the listed journals it could read, in listing order, each once and as crashed |
| RunnerReplay.ReplayFiles | services/runner/main.go:303-330 | and writes no file, removes none it did not list, and touches no session |
| RunnerCallbacks.CancelReachesTheLiveSession | services/runner/main.go:236-264 | a cancel fires exactly the session of the key that is not done and has registered its function, and changes nothing else |
| RunnerCallbacks.OnlyCancelsCancel | services/runner/main.go:236-264 | in every run a cancelled session was cancelled by a request for its key, in that process |
| RunnerKeys.KeySeparatesWorkItems | services/runner/main.go:85-91 | for plain tickets, equal keys mean the same review-or-code, ticket and repository |
| RunnerKeys.SessionServesOneWorkItem | services/runner/main.go:85-91 | in every run all launches acknowledged by one session asked for the same work item |
| RunnerKeys.KeysCollideExactly | services/runner/main.go:85-91 | two different work items have one key exactly when a coding ticket spells out the review prefix of the other, or a bar of one ticket moved into the other's repository |
| RunnerKeys.ReviewPrefixCollides | services/runner/main.go:180-197 | every review the handler accepts shares its key with a coding request the handler accepts |
| RunnerKeys.BarInTicketCollides | services/runner/main.go:180-197 | any text without a slash or two dots can stand on either side of the bar: two accepted requests, two work items, one key |
| RunnerKeys.AcceptedExactly | services/runner/main.go:186-197 | a launch is accepted exactly when nothing required is missing, its repository is an owner, one slash and a name without two dots in a row, and a review names its head |
| RunnerRecovery.StepKeepsDurable | services/runner/main.go:202-229 | every careful step keeps: whoever is not yet called back is in a journal that a restart will find |
| RunnerRecovery.RunKeepsDurable | services/runner/main.go:275-330 | the same over every careful run with any number of crashes |
| RunnerRecovery.NoStrandedRun | services/runner/main.go:202-229 | an acknowledged launch was called back since, or its run is on disk under its key |
| RunnerQuiescence.StepKeepsOwned | services/runner/main.go:297-329 | once the listing is taken every file belongs to a session that is not through or to the replay |
| RunnerQuiescence.OrdinaryLaunchIsCareful | services/runner/main.go:268-270 | a launch after recovery whose sanitized name no unfinished session has finds its journal name free |
| RunnerQuiescence.QuiescentMeansCalled | services/runner/main.go:361-374 | in every ordinary run with any number of crashes: when recovery is over and no goroutine is left, the work directory is empty and every acknowledged launch was called back since |
| RunnerQuiescence.DrainRecovery | services/runner/main.go:297-330 | left alone, recovery replays what it listed and comes to its end |
| RunnerQuiescence.DrainSession | services/runner/main.go:332-374 | left alone, a session's goroutine comes to its end |
| RunnerQuiescence.EveryLaunchIsCalledBack | services/runner/main.go:297-374 | from every state an ordinary run can reach, the program left alone calls back every acknowledged launch, removes every journal and comes to rest |
| RunnerRecovery.JournalIsListed | services/runner/main.go:268-305 | whatever the key, its journal is one element of a path and has the beginning and end by which recovery knows journals; between them each character but ASCII letters, digits, low line and dot is a dash |
| RunnerRecovery.JournalNamesCollideExactly | services/runner/main.go:903-914 | two keys share a journal file exactly when they differ only in characters written as a dash |
| RunnerStranding.StrandedForever | services/runner/main.go:275-330 | a stranded run is not called back by any later run of events unless it is launched again |
| RunnerStranding.CrashStrandsExactly | services/runner/main.go:275-330 | a crash strands a launch exactly when it was neither called back since nor is on disk under its key |
| RunnerStranding.LaunchSafeExactly | services/runner/main.go:199-225 | the exact condition for a launch, start or join, written, unwritten or torn, to leave no launch that a crash would strand |
| RunnerStranding.StepSafeExactly | services/runner/main.go:199-374 | the exact condition for every step, the removals of os.Remove included |
| RunnerStranding.NeverStrandedExactly | services/runner/main.go:202-374 | over whole runs: no crash at any point strands a launch exactly when every step meets its condition |
| RunnerStranding.CarefulRunIsSafe | services/runner/main.go:202-229 | careful runs meet all the conditions |
| RunnerStranding.RelaunchBeforeRemoveStrands | services/runner/main.go:361-374 | a relaunch between done and the removal of the journal is stranded by one crash |
| RunnerStranding.FirstSessionDone | services/runner/main.go:332-370 | a careful run that ends in the window of the race exists |
| RunnerStranding.RelaunchRace | services/runner/main.go:361-374 | the race happens in a run from an empty machine |
| RunnerStranding.StartupRace | services/runner/main.go:297-329 | a run that joins a session started before the listing is stranded, in a run from an empty machine |
| RunnerServer.Server.HandleLaunch | services/runner/main.go:180-229 | refuses exactly the invalid requests; otherwise answers started or already running and takes the Launch step |
| RunnerServer.Server.JoinSession | services/runner/main.go:202-218 | appends the subscriber unless its run is there, saving the journal |
| RunnerServer.Server.StartSession | services/runner/main.go:222-225 | replaces the key's session by a new one and saves its journal |
| RunnerServer.Server.Subscribed | services/runner/main.go:205-212 | the search loop finds a run id exactly when some subscriber has it |
| RunnerServer.Server.SaveJournal | services/runner/main.go:275-291 | the work directory afterwards, for each outcome of the write |
| RunnerServer.Server.HandleCancel | services/runner/main.go:236-264 | the answers, and the cancel of a live session that has registered its function |
| RunnerServer.Server.RegisterCancel | services/runner/main.go:335-337 | the step that stores the cancel function |
| RunnerServer.Server.MarkDone | services/runner/main.go:361-364 | done and the snapshot of the subscribers in one critical section |
| RunnerServer.Server.DeliverOne | services/runner/main.go:367-369 | the next subscriber of the snapshot is called |
| RunnerServer.Server.RemoveOwnJournal | services/runner/main.go:373 | the file under the session's name goes, whoever wrote it |
| RunnerServer.Server.TakeListing | services/runner/main.go:297-301 | recovery works on the listing it took |
| RunnerServer.Server.OpenNext | services/runner/main.go:303-314 | the next listed file is skipped, or opened for replay |
| RunnerServer.Server.NotifyOne | services/runner/main.go:325-327 | the next subscriber of the journal hears crashed |
| RunnerServer.Server.DiscardCurrent | services/runner/main.go:328 | the replayed file goes |
| RunnerServer.Server.Reboot | services/runner/main.go:128-161 | a new process has the old disk and no session |
| RunnerServer.DeliverCallback | services/runner/main.go:681-721 | at most six POSTs with doubling pauses; stops at the first answer that accepts or refuses for good |
| RunnerServer.DeliveredIff | services/runner/main.go:700-715 | the callback gets through exactly when some answer among the first six is of the two hundreds and none before it is of the four hundreds, 408 and 429 apart; and is given up as refused exactly in the opposite order |
| RunnerServer.SleepTotals | services/runner/main.go:694-718 | the pauses between the attempts add up to 2, 6, 14, 30, 62 and 126 seconds |
| SqlSplitter.SplitStatements | services/api/internal/migrate/migrate.go:160-252 | the five-mode loop returns the trimmed non-blank groups of the token language, for every text; it ends and every slice is in bounds |
| SqlSplitter.SkipLine | services/api/internal/migrate/migrate.go:204-211 | a comment ends at its newline or at the end of the text |
| SqlSplitter.InDollarTurn | services/api/internal/migrate/migrate.go:170-179 | one turn inside a dollar quote is one step of the specification |
| SqlSplitter.InSingleTurn | services/api/internal/migrate/migrate.go:181-193 | one turn inside a string, doubled quotes included |
| SqlSplitter.InDoubleTurn | services/api/internal/migrate/migrate.go:195-202 | one turn inside a quoted identifier |
| SqlSplitter.TopTurn | services/api/internal/migrate/migrate.go:213-245 | one turn at top level |
| SqlGrammar.ReadToken | services/api/internal/migrate/migrate.go:167-246 | a written token in front of a text that may follow it is read back whole |
| SqlGrammar.TokenizeInvertsWrite | services/api/internal/migrate/migrate.go:160-252 | the lexer inverts the writer on every well-separated token sequence |
| SqlGrammar.GroupIsBlocks | services/api/internal/migrate/migrate.go:237-250 | grouping is cutting at the semicolon tokens and keeping the trimmed non-blank groups |
| SqlGrammar.SplitOfWritten | services/api/internal/migrate/migrate.go:160-252 | splitting a written text gives the trimmed non-blank groups between its semicolon tokens, comments as newlines |
| SqlGrammar.CommentIsNewline | services/api/internal/migrate/migrate.go:204-211 | a comment, whatever it holds, does to its statement what a newline in its place would |
| SqlGrammar.TokensWellSeparated | services/api/internal/migrate/migrate.go:167-246 | the tokens of any text, comments as newlines, can be written out and read again |
| SqlIdempotence.SplitIdempotent | services/api/internal/migrate/migrate.go:160-252 | splitting the joined statements of any text gives the same statements |
| SqlStatements.SplitGivesCores | services/api/internal/migrate/migrate.go:237-250 | by code points: the statements of any text are its groups without the white space around them, in order, and a group of white space alone gives none |
| SqlStatements.SplitIsTrimmed | services/api/internal/migrate/migrate.go:237-250 | no statement is empty, or begins or ends with a newline, tab, blank or other white space |
| SqlStatements.WhiteGivesNothing | services/api/internal/migrate/migrate.go:237-250 | a text of white space and semicolons has no statement |
| Migrations.BaselineIsIdle | services/api/internal/migrate/migrate.go:78-115 | baseline records nothing on a database only migrations have touched |
| Migrations.ApplyFileIsAtomic | services/api/internal/migrate/migrate.go:134-155 | a file that fails leaves no trace, one that succeeds its whole effect and its row |
| Migrations.RunKeepsSound | services/api/internal/migrate/migrate.go:26-73 | any run of any file set, stopped anywhere, with whatever calls failing, keeps the recorded set equal to the committed set, each version once, and loses none |
| Migrations.RecordedExactly | services/api/internal/migrate/migrate.go:126-132 | exactly the versions of the applied prefix are recorded |
| Migrations.RunKeepsPrefix | services/api/internal/migrate/migrate.go:44-65 | a run moves from one prefix of the files to a longer one, and to all of them when it succeeds |
| Migrations.MigrationsAcrossCrashes | services/api/internal/migrate/migrate.go:26-73 | from an empty database, after any interrupted runs: a prefix of the files was committed in order, once each, the recorded set is the committed set, and the schema is that of an uninterrupted pass |
| Migrations.SecondRunIsIdle | services/api/internal/migrate/migrate.go:26-73 | after a successful run the next one changes nothing |
| MigrationProgress.RunGetsThrough | services/api/internal/migrate/migrate.go:26-73 | however earlier runs were cut off, a run left alone succeeds when the files' SQL does, with the schema of an uninterrupted pass |
| MigrationProgress.SuccessMeansServed | services/api/internal/migrate/migrate.go:26-73 | a run that reports success had every one of its database calls served: no error is passed over |
| MigrationBaseline.OlderDatabaseIsAdopted | services/api/internal/migrate/migrate.go:78-115 | on a database older than the runner nothing is executed, in any later run either, and all files are recorded or none |
| MigrationBaseline.AdoptOnce | services/api/internal/migrate/migrate.go:100-115 | one run whose calls are served records them all |
| MigrationBaseline.BaselineRace | services/api/internal/migrate/migrate.go:78-97 | with another runner in between, soundness is lost exactly when the count saw no row, the probe saw the users table and files were left to apply |
| MigrationBaseline.RaceSkipsFilesForever | services/api/internal/migrate/migrate.go:78-115 | the race from an empty database: the second file is recorded and never executed |
| MigrationRunner.Pool.Run | services/api/internal/migrate/migrate.go:26-73 | the program's loop over failing calls, database, calls left and result, is the specification |
| MigrationRunner.Pool.RecordBaseline | services/api/internal/migrate/migrate.go:78-97 | both reads, and the recording when there are no rows but the users table |
| MigrationRunner.Pool.RecordRows | services/api/internal/migrate/migrate.go:99-115 | the recording transaction: every version or none |
| MigrationRunner.Pool.ApplyOne | services/api/internal/migrate/migrate.go:134-155 | one file's transaction over the statements the splitter returns |
| MigrationRunner.Pool.CreateTracking | services/api/internal/migrate/migrate.go:117-124 | the tracking table is created when it is not there |
| GraphTables.UpsertsNode | services/api/internal/repository/workflows.go:218-249 | which rows exist after the upserts, and that another workflow's row does not move |
| GraphTables.SaveSucceeds | services/api/internal/repository/workflows.go:197-276 | the transaction commits exactly when every parameter casts, every agent to be written exists and every edge joins known nodes |
| GraphTables.SavedNodes | services/api/internal/repository/workflows.go:211-249 | the workflow's nodes afterwards, exactly |
| GraphTables.SavedRow | services/api/internal/repository/workflows.go:218-249 | each submitted row of its own is stored as submitted |
| GraphTables.SavedEdges | services/api/internal/repository/workflows.go:252-274 | the workflow's edges afterwards are exactly those submitted |
| GraphTables.ForeignNodesUntouched | services/api/internal/repository/workflows.go:226-249 | whatever ids are submitted, another workflow's node row stays as it is and no row changes hands |
| GraphTables.ForeignEdgesCascade | services/api/internal/repository/workflows.go:211-216 | another workflow's edge is lost exactly when it hung on a deleted node |
| GraphTables.GraphClosed | services/api/internal/repository/workflows.go:256-274 | the saved edges join the workflow's own nodes exactly when no submitted edge names another workflow's node |
| GraphTables.SaveKeepsIntegrity | services/api/internal/migrate/sql/005_workflow_graph.sql:5-23 | foreign keys hold after a save |
| WorkflowGraph.Repository.SaveGraph | services/api/internal/repository/workflows.go:197-276 | commits the specification's tables or changes nothing; it commits exactly when every one of its calls is served and the specification saves, and reports an unknown node exactly when the specification does |
| WorkflowGraph.Repository.Body | services/api/internal/repository/tx.go:14-24 | the body that the transaction wraps, up to the commit |
| WorkflowGraph.Repository.ResolveIds | services/api/internal/repository/workflows.go:199-208 | the loop's map from client id to row id and its list of kept ids |
| WorkflowGraph.Repository.UpsertNodes | services/api/internal/repository/workflows.go:218-249 | the upsert loop |
| WorkflowGraph.Repository.WriteEdges | services/api/internal/repository/workflows.go:252-274 | the edge loop, with its error for an unknown node |
| WorkflowGraph.Repository.GetGraph | services/api/internal/repository/workflows.go:151-189 | the workflow's rows, as a set |
| WorkflowGraph.SavedExactly | services/api/internal/repository/workflows.go:197-276 | with client ids, UUIDs and minted ids all distinct and no row another workflow's: a graph is saved exactly when its ids and agents cast, its agents exist, its configs are JSON and its edges name submitted nodes |
| WorkflowGraph.MintedId | services/api/internal/repository/workflows.go:201-207 | a node whose client id is no UUID belongs in the row minted for it, and no other node does |
| WorkflowGraph.RoundTrip | services/api/internal/repository/workflows.go:151-276 | under the same conditions, loading after saving gives exactly the submitted nodes, each under the UUID it named or the one minted for it, and exactly the submitted edges between those |
| WorkflowGraph.UnsubmittedEdgeStops | services/api/internal/repository/workflows.go:256-261 | an edge naming an id that was not submitted stops the save |
| WorkflowGraph.UnknownNodeIsReported | services/api/internal/repository/workflows.go:256-261 | and is reported as an unknown node when everything before it is in order |
| WorkflowGraph.ResaveKeepsNodes | services/api/internal/repository/workflows.go:191-196 | a loaded graph saves again exactly when its edges join its own nodes, and then the node table is identical |
| WorkflowGraph.ResaveKeepsEdges | services/api/internal/repository/workflows.go:252-274 | and each edge is there again under its new id |
| Chunking.CutText | services/api/internal/connector/pipeline.go:186-210 | the loop returns the specification's chunks, for every overlap |
| Chunking.ChunkAt | services/api/internal/connector/pipeline.go:186-210 | chunk k starts at k times the step and has the full size unless it is the last |
| Chunking.ChunkCount | services/api/internal/catalog/ingest.go:309-333 | a text that fits is one chunk, any other has a number of chunks in closed form |
| Chunking.NeighboursOverlap | services/api/internal/connector/pipeline.go:186-210 | neighbouring chunks share exactly the overlap |
| Chunking.ChunksRebuildText | services/api/internal/catalog/ingest.go:309-333 | dropping what each later chunk shares with the one before rebuilds the text |
| Chunking.CoverageExactly | services/api/internal/connector/pipeline.go:186-210 | every character is in a chunk exactly when the overlap is not negative or the text fits in one |
| DocumentIndex.EmitSlot | services/api/internal/connector/pipeline.go:109-139 | what each chunk slot of a changed document holds afterwards, whatever failed |
| DocumentIndex.EmitElsewhere | services/api/internal/connector/pipeline.go:114-139 | other documents' chunks stay |
| DocumentIndex.EmitMirrors | services/api/internal/connector/pipeline.go:66-142 | with its calls served, an emit leaves each document with exactly the chunks of its content |
| DocumentIndex.UpsertIsEmit | services/api/internal/catalog/ingest.go:260-306 | without an error the catalog's path does exactly what the pipeline's does |
| DocumentIndex.UpsertOkMirrors | services/api/internal/catalog/ingest.go:260-306 | an upsert that reports no error leaves the index right, and counts its chunks |
| DocumentIndex.UpsertCounts | services/api/internal/catalog/ingest.go:280-305 | the number an upsert of new content returns, with an error or without, is the number of chunks of it that are stored, or none when the old ones are |
| DocumentIndex.TryRightExactly | services/api/internal/connector/pipeline.go:66-142 | the exact condition, over the calls that failed, for an attempt at changed content to leave the document right: known or new, by either path |
| DocumentIndex.RightNowOrNever | services/api/internal/catalog/ingest.go:260-306 | once an attempt has recorded the hash, any further attempts at the same content leave the document right exactly when that one did |
| DocumentIndex.BlindEmit | services/api/internal/connector/pipeline.go:72-89 | a failed lookup records the new hash over the old chunks |
| DocumentIndex.HashSeals | services/api/internal/catalog/ingest.go:273-276 | once the hash is recorded the same content changes nothing, by either path and with any outcome |
| DocumentIndex.SealedForGood | services/api/internal/connector/pipeline.go:79-83 | nor does any sequence of further attempts |
| DocumentIndex.MissingChunkIsNeverRepaired | services/api/internal/connector/pipeline.go:109-139 | a chunk that failed to be written stays missing however often the same content is synced, for new and changed documents and by either path |
| DocumentSync.Store.Emit | services/api/internal/connector/pipeline.go:66-142 | the program's steps and counters are the specification |
| DocumentSync.Store.UpsertDocument | services/api/internal/catalog/ingest.go:260-306 | the program's steps, result and count are the specification |
| DocumentSync.SyncsMirror | services/api/internal/connector/pipeline.go:66-142 | over any run of served syncs each document's chunks are those of its latest content |
| DocumentSync.IncrementalIsRebuild | services/api/internal/catalog/ingest.go:260-306 | from an empty index: exactly the chunks of the latest content at 0 to n-1, none stale |
| DocumentSync.SameContentsSameIndex | services/api/internal/connector/pipeline.go:66-142 | two runs with the same latest contents, one a rebuild, cannot be told apart by a reader |
| WhatsApp.StepKeepsGood | services/api/whatsapp-adapter/server.js:414-477 | each step keeps the recent texts the tail of all texts sent, what is missing from the last hundred expired, the store free of duplicates |
| WhatsApp.RunKeepsGood | services/api/whatsapp-adapter/server.js:414-477 | the same over every interleaving of sends, acknowledgements, messages and resumed lookups |
| WhatsApp.EveryRunIsBounded | services/api/whatsapp-adapter/server.js:417-474 | from the start: at most 500 stored messages and 100 recent texts, and every own message that was forwarded had self-chat enabled when it came in and a self peer when last checked |
| WhatsApp.ForgetExactly | services/api/whatsapp-adapter/server.js:428-434 | an id that is used up is forgotten, and with it, beyond a thousand others, the oldest |
| WhatsAppFate.GuardIsExact | services/api/whatsapp-adapter/server.js:444-450 | the pruned list finds a text exactly when it was sent under two minutes ago and among the last hundred |
| WhatsAppFate.OthersAreForwarded | services/api/whatsapp-adapter/server.js:426-476 | a message from somebody else goes to the agent whatever its text, the recorded ids and the settings |
| WhatsAppFate.OthersReachTheAgent | services/api/whatsapp-adapter/server.js:414-477 | in every run what reaches the agent from other people is all they sent, in order, each message once |
| WhatsAppFate.OwnMessageFate | services/api/whatsapp-adapter/server.js:426-476 | a message of the owner's passes exactly when its id is not recorded, self-chat is on and its text was not recently sent; it then goes to the agent from the owner's chat and waits for the lookup from another while the LID is unknown |
| WhatsAppFate.OwnMessageTraces | services/api/whatsapp-adapter/server.js:426-474 | what else it leaves behind: the LID learned, its recorded id used up, and nothing more |
| WhatsAppFate.OldTextsGo | services/api/whatsapp-adapter/server.js:446-447 | the recent texts are cleared of those two minutes old |
| WhatsAppFate.ResumedFate | services/api/whatsapp-adapter/server.js:458-476 | a paused message goes to the agent exactly when its peer has turned out to be the owner |
| WhatsAppFate.SelfPeerExactly | services/api/whatsapp-adapter/server.js:177-185 | peers are compared by what stands before server and device, with the own number, the own LID, and for a LID with the number mapped to it |
| WhatsAppFate.SettingsAreLatest | services/api/whatsapp-adapter/server.js:437-474 | what was configured or looked up last holds until the next time |
| WhatsAppFate.SelfChatIsOptIn | services/api/whatsapp-adapter/server.js:437-440 | in every run, until self-chat is turned on, no message of the owner's reaches the agent |
| WhatsAppFate.RecordedEchoStops | services/api/whatsapp-adapter/server.js:426-436 | the echo of a message whose id was recorded goes no further whatever happens in between, as long as no thousand ids are left over, and uses the id up |
| WhatsAppFate.EchoNeverForwarded | services/api/whatsapp-adapter/server.js:762-799 | whatever happens in between, the echo of a text under two minutes old with fewer than a hundred texts after it is neither forwarded nor kept waiting |
| WhatsAppFate.LearningAdmitsOnlyItself | services/api/whatsapp-adapter/server.js:469-474 | learning an address from a self-chat message admits that address as a peer and no other |
| WhatsAppStore.RetriesAreServed | services/api/whatsapp-adapter/server.js:417-424 | a message that came in or was sent can be looked up, as it was, after any run that stores at most 499 others |
| WhatsApp.Account.RecordText | services/api/whatsapp-adapter/server.js:769-773 | the text is recorded before it is sent |
| WhatsApp.Account.RecordAck | services/api/whatsapp-adapter/server.js:790-799 | the id and message recorded when the socket answers |
| WhatsApp.Account.OnMessage | services/api/whatsapp-adapter/server.js:414-477 | the handler up to its wait is the Notify step |
| WhatsApp.Account.OnOwnMessage | services/api/whatsapp-adapter/server.js:437-474 | its part behind the id filter |
| WhatsApp.Account.Recheck | services/api/whatsapp-adapter/server.js:458-474 | the rest of the handler after the address lookup |
| Gateway.Service.Post | services/api/whatsapp-adapter/server.js:762-800 | one POST calls sendMessage only on a connected account; what the gateway makes of the answer |
| Gateway.Service.PostUntilSettled | services/api/internal/gateway/service.go:95-112 | the retry loop |
| Gateway.Service.SendWhatsApp | services/api/internal/gateway/service.go:67-123 | the outbox row is created pending and leaves pending once, other rows stay |
| Gateway.SentAtMostOnce | services/api/internal/gateway/service.go:95-112 | however many POSTs are made, sendMessage is called at most once, by the last; the outcome is delivered exactly when that one succeeded |
| Gateway.FailedYetSent | services/api/internal/gateway/service.go:113-119 | a failed row was sent exactly when the last POST found the account connected and timed out or lost its answer |
| Gateway.SentMeansOnce | services/api/internal/gateway/service.go:120-123 | a sent row means sendMessage was called once |
| Gateway.SettledBy | services/api/internal/gateway/service.go:95-112 | after k answers that say connecting the next POST settles the send: 200 delivers it with k+1 POSTs, and a timeout, another status, another error, the last attempt or a cancelled pause fails it there |
| Gateway.DishonestFaultDuplicates | services/api/internal/gateway/service.go:107-110 | without the hypothesis on error texts five sends are possible |
| TokenRefresh.SingleFlight | apps/web/src/lib/api.ts:58-107 | in every run at most one refresh is on the wire, a request is sent at most twice, and twice only after a refresh that succeeded |
| TokenRefresh.RunKeepsGood | apps/web/src/lib/api.ts:84-107 | the client's field always says what is on the wire |
| TokenRefresh.WaiterCanWake | apps/web/src/lib/api.ts:86-107 | a waiting request's refresh is on the wire or has its outcome |
| TokenRefresh.OneOutcome | apps/web/src/lib/api.ts:86-107 | all waiters of a refresh see the same outcome |
| TokenRefresh.RequestEnds | apps/web/src/lib/api.ts:58-82 | a request takes at most four steps in any run |
| TokenRefresh.ReplyFate | apps/web/src/lib/api.ts:58-89 | a reply settles its request unless it is a 401 off the auth paths; that waits for a refresh, posting one exactly when none is on the wire, and after a replay leads to the login page |
| TokenRefresh.WaiterFate | apps/web/src/lib/api.ts:70-72 | in every run a waiting request is replayed when its refresh succeeds, and only then; else it ends at the login page |
| TokenRefresh.AuthPathsStayOut | apps/web/src/lib/api.ts:65-69 | in every run a request on an auth path is sent once, and never waits or leads to the login page |
| TokenRefresh.APIClient.OnReply | apps/web/src/lib/api.ts:58-82 | what a reply does to the request and the refresh |
| TokenRefresh.APIClient.RefreshToken | apps/web/src/lib/api.ts:86-107 | joins the refresh in flight or posts one |
| TokenRefresh.APIClient.OnRefreshEnds | apps/web/src/lib/api.ts:91-105 | the field is cleared and the outcome kept |
| TokenRefresh.APIClient.OnWake | apps/web/src/lib/api.ts:70-72 | replay after success, login page after failure |
| Truncation.TruncateMessages | services/api/internal/provider/tokens.go:25-60 | the result in place, the number dropped, and the tail behind it, which repeats the last message |
| Truncation.DropOldest | services/api/internal/provider/tokens.go:51-58 | the dropping loop |
| Truncation.RemoveAt | services/api/internal/provider/tokens.go:55 | one element out, the rest moved down in the shared array |
| Truncation.CountPrompts | services/api/internal/provider/tokens.go:40-43 | the length of the leading run of system messages |
| Truncation.TruncatedExactly | services/api/internal/provider/tokens.go:25-60 | for every list: behind the leading system messages as few go as will do, and then it fits or at most one message is left behind them |
| Truncation.EndsSurvive | services/api/internal/provider/tokens.go:40-58 | the result is the prompts and a suffix, and the last message survives |
| Truncation.TruncateTwice | services/api/internal/provider/tokens.go:25-60 | truncating again changes nothing |
| ModelCatalog.Catalog.SetCatalogOverlay | services/api/internal/provider/catalog.go:38-45 | the overlay is a longest-first permutation of the specs |
| ModelCatalog.Catalog.LookupModel | services/api/internal/provider/catalog.go:130-148 | overlay first, then the static table |
| ModelCatalog.Catalog.IsDeprecatedModel | services/api/internal/provider/catalog.go:68-78 | the overlay's word |
| ModelCatalog.ContainsExactly | services/api/internal/provider/catalog.go:133-144 | a name contains a fragment exactly when it is the fragment with something before and behind it |
| ModelCatalog.OverlayIsMostSpecific | services/api/internal/provider/catalog.go:130-148 | a name some synced spec matches gets a matching synced spec of maximal length |
| ModelCatalog.OverlayFallsThrough | services/api/internal/provider/catalog.go:130-148 | a name none matches gets the static row |
| ModelCatalog.ReachableExactly | services/api/internal/provider/catalog.go:80-125 | a static row can be found exactly when no earlier fragment occurs in its own |
| ModelCatalog.FirstMatchIsMaximal | services/api/internal/provider/catalog.go:80-125 | when all rows can be found, the one found is maximal among those that match |
| ModelCatalog.DeprecatedAgrees | services/api/internal/provider/catalog.go:68-78 | as long as no static row is deprecated the deprecation check agrees with the lookup |
| ModelCatalog.DeprecationExactly | services/api/internal/provider/catalog.go:68-78 | in general they differ exactly on names that fall through to a deprecated static row |
| StreamReaders.ReadStream | apps/web/src/app/nexus-ai/page.tsx:263-314 | the view after reading a stream is the one its complete lines give in order, however the stream was cut up |
| StreamReaders.NextPiece | apps/web/src/components/NexusDraftPanel.tsx:103-144 | going on with the unfinished line and the next piece |
| TextLines.CutInPieces | apps/web/src/components/NexusDraftPanel.tsx:103-110 | cutting a text in two goes gives the lines of the whole |
| StreamReaders.ReadersAgree | apps/web/src/app/nexus-ai/page.tsx:274-277 | the page sees the panel's payload on lines with its prefix and nothing on others |
| StreamReaders.ReadersDiffer | apps/web/src/components/NexusDraftPanel.tsx:111-115 | the two readers agree on a line exactly when it has the page's prefix or no payload |
| StreamReaders.ReadersRead | apps/web/src/app/nexus-ai/page.tsx:274-277 | both readers get the payload of a line without the white space around it, and nothing from a line without one |
| StreamReaders.ReadersReact | apps/web/src/components/NexusDraftPanel.tsx:111-118 | and react to the event it holds, skipping what does not parse |
| StreamReaders.PanelIgnores | apps/web/src/components/NexusDraftPanel.tsx:111-113 | a line that does not begin with the field name holds nothing for the panel |
| StreamReaders.PanelShows | apps/web/src/components/NexusDraftPanel.tsx:118-144 | the panel shows all of the delta text in order and nothing else, the drafts in order, what the last tool event said and the last error |
| StreamReaders.PageText | apps/web/src/app/nexus-ai/page.tsx:279-313 | the page's text is the delta text in order; when an error comes before any text, the apology stands in its place and later deltas behind it |
| StreamReaders.CompletionsAreShown | apps/web/src/app/nexus-ai/page.tsx:291-303 | over a whole stream each completion shows on one finished card, and no finished card shows anything else |
| StreamReaders.PageEventKeepsPending | apps/web/src/app/nexus-ai/page.tsx:285-303 | a pending entry leads to an unfinished card of its own tool |
| StreamReaders.OrphanedExactly | apps/web/src/app/nexus-ai/page.tsx:285-303 | an event leaves a card that no completion will find exactly when it starts a tool that has not completed |
| StreamReaders.StreamOrphansExactly | apps/web/src/app/nexus-ai/page.tsx:263-314 | a whole stream leaves such a card exactly when some tool in it starts again before it has completed |
| ServerSentEvents.ExtractSSEData | services/api/internal/mcp/client.go:272-298 | the scanning loop is the specification |
| ServerSentEvents.FramedPayloadComesOut | services/api/internal/mcp/client.go:272-298 | framed lines come out, one leading space and one carriage return removed, whatever other lines stand between and whatever follows the blank line |
| ServerSentEvents.UnterminatedPayloadComesOut | services/api/internal/mcp/client.go:292-294 | also when the stream ends without the blank line, or within its last line |
| ServerSentEvents.OtherLinesAreSkipped | services/api/internal/mcp/client.go:283-291 | lines before the first data line do not matter, blank ones included |
| ServerSentEvents.NoDataNoPayload | services/api/internal/mcp/client.go:295-298 | without a data line there is no payload |
| ServerSentEvents.LongLineEnds | services/api/internal/mcp/client.go:274-281 | a line of a mebibyte or more ends the reading, and what came before it counts |
| ServerSentEvents.PayloadRoundTrip | services/api/internal/mcp/client.go:266-271 | any payload, sent line by line, is what the reader returns |

## Left out

Of the runner:

- Progress reports, start times, the subprocesses that do a session's work, timeouts and log output; a session's status is a parameter of its Finish step.
- A callback is one step of the protocol; its retry loop is modelled on its own. A crash between a delivered POST and the end of its step is not told apart from a crash before it.
- A callback's log entry keeps the subscriber, the work item and the status; results, branches and pull requests a session reports are not modelled.
- Files in the work directory that are not journals.

Of the migration runner:

- SqlSplitter.SplitStatements: text is a sequence of characters, which is the byte loop on valid UTF-8; the loop's branches are methods of their own, and the builder is a string.
- Block comments and numbered parameters, which the splitter does not know, are outside the grammar.
- Migrations.MigrationsAcrossCrashes: takes a file set with distinct names, and an application schema whose users table only a migration creates; a statement that ends the transaction itself is not modelled, nor the length limit of a version.
- A commit whose answer is lost is a commit followed by a crash; only the returned error is not told apart.

Of the workflow graph:

- The rest of the repository layer, creation times and the order they give; a loaded graph is a set.
- WorkflowGraph.RoundTrip: UUID parsing, text casts and the normal form of JSON are functions with a law each; that made-up ids are new and distinct is a hypothesis.
- GraphTables.SaveSucceeds: the workflow is assumed to exist, as the caller checks; a node type with a zero byte is not modelled.

Of the document index:

- Embeddings, metadata, titles and URLs of documents, vector and full-text search, removal of a repository by pattern.
- DocumentIndex.UpsertIsEmit: SHA-256 is free of collisions by construction of the type, and made-up ids are assumed new.
- Chunking.ChunkAt: the chunk size is positive, as both constants are.

Of the WhatsApp path:

- The socket's life cycle, reconnects, media, reactions, names and JID formats; the address lookup is any change of what the account knows of itself.
- WhatsAppFate.EchoNeverForwarded: the clock does not run backwards.
- Gateway.SentAtMostOnce: bodies and error texts are reduced to whether they contain the quoted word connecting; a lost answer is assumed not to contain it after the message went out, and `DishonestFaultDuplicates` shows why.
- Events logged about deliveries, defaults filled into a request.

Of the smaller cores:

- TokenRefresh.SingleFlight: a fetch never returns before the statement after it, as fetch is asynchronous; response bodies and error texts are left out.
- Truncation.TruncateMessages: the estimate is an arbitrary function; JSON encoding is not modelled.
- ModelCatalog.Catalog.SetCatalogOverlay: the library sort is an insertion sort here; the lemmas hold for every longest-first permutation. Prices, locks, case folding and the rows of the concrete table are left out.
- StreamReaders.ReadStream: pieces are decoded text and JSON parsing is an arbitrary function; the rendering of cards and messages is reduced to lists.
- ServerSentEvents.ExtractSSEData: a read error is the end of the text, and a line's length is counted in characters.

Not modelled at all, as they would only add easy members: the remaining CRUD of
the repositories, encryption and token formats, OAuth discovery, configuration,
logging, React rendering and the mock servers. The workflow engine and the HTTP
handlers that call these cores are not part of this model.
