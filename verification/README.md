# pican: projections, catalogs and workers

pican keeps rebuildable projections of sessions that belong to other agents (Codex, OpenCode,
Claude) and drives those agents through long-lived workers. The native session is the authority; a
projection, a cache or a mailbox must agree with it in every interleaving of events. These Dafny
modules model the state machines, caches and transformations on which that rests, and prove that they do.

Concurrent code is modelled as a state machine with one step for each critical section, channel
operation, call or callback. `Run` relates a state to what any sequence of steps makes of it, and the
main lemmas (`EveryRunIsSafe`) hold of every run. Beside the state machine stands a class with the
program's own fields, whose methods are its critical sections: each is proved to take exactly one step,
so every interleaving of calls is a run. Fields that the program does not have
(histories, who waits where) are ghost. Sequential code is modelled as methods over maps, sequences
and arrays with the program's loops, proved against functions whose meaning is then stated by lemmas.

| module | program |
|---|---|
| `KeyedLocks` | the reference-counted lock per key in internal/projections/store.go |
| `FingerprintCache`, `AtomicWrite` | the fingerprint cache and the atomic write that relies on it, same file |
| `ProjectionEntries`, `ProjectionStore` | `Replace`, `AppendLocal` and what they read, same file |
| `SseMailbox` | the per-client mailbox of internal/server/server.go and its reader in events.go |
| `CodexToolActivity`, `CodexMergeIds` | projecting a Codex thread, reading tool activity back, merging it; what the merge does to item ids |
| `CodexItems`, `CodexThread`, `CodexWorker` | the live thread of a Codex worker, its merges, its revisions and their writes |
| `CodexDurability` | the projection file beside the worker: what tool activity survives whole runs |
| `CodexCalls`, `CodexNotifications` | the JSON-RPC client of internal/codex/client.go |
| `Supervisor`, `SupervisorBudget` | the OpenCode supervisor: its children, and its restart budget |
| `OpenCodeWorker`, `OpenCodeCatalog` | refresh coalescing and terminal errors; catalog reconciliation |
| `ClaudeWorker`, `ClaudeCatalog` | turns, interrupts and failure; the incremental catalog |
| `ClaudeTranscript`, `ClaudeTree`, `ClaudeForest` | lines and record identities; the contraction of the parent tree, and when it is a forest |
| `Options` | a value that may be absent |
| `Utf8Bounds` | the bounded previews of the OpenCode and Claude workers |
| `SubagentMatch` | the greedy matching of internal/server/subagents_api.go |

`dafny verify dfyconfig.toml` checks the whole project.

## What the code does not do

Where a property one would expect is false of the code, the code is modelled as it is, the exact
condition is proved, and an input or a run shows that it fails.

- A broadcast that is one of three bare key names would be taken for the token of that key
  (`SseMailbox.OnlyBareNamesBreakSignalling`). No caller in the repository sends one.
- The defaulting of the supervisor's bounds does not order them when the minimum alone is set above
  the default maximum (`SupervisorBudget.NormalizeOrdersBounds`), and then the first wait exceeds the
  maximum (`SupervisorBudget.BackoffIsCappedDoubling`, `SupervisorBudget.LongMinimum`).
- Claude's accumulated preview can show a narrow character after leaving out a wider one
  (`Utf8Bounds.AccumulatingIsOneShot`, `Utf8Bounds.AccumulatingCanSkip`); the assistant record repairs it
  (`Utf8Bounds.HeadPreview.Settle`).
- A steer reply is taken without the check for completed turns (`CodexWorker.ActiveStaysLive`,
  `CodexWorker.SteerCanReviveTurn`).
- A projection is often written from the worker's own turns, and the merge then rewrites them in place
  without moving the revision. Item ids can meet in it, and do if and only if captured items do not fit
  (`CodexWorker.ItemIdsStay`, `CodexMergeIds.MergedIdsAreDistinct`, `CodexWorker.OpeningCanDuplicate`).
- A tool call can be lost from the projection: a snapshot with tools in a turn replaces all that was
  captured for it (`CodexDurability.MoveKeepsHeld`, `CodexDurability.LiveToolDisplaces`).
- An interrupt can reach the turn after the one it was meant for (`ClaudeWorker.LateInterrupts`,
  `ClaudeWorker.InterruptHitsTheNext`).
- A later Close returns at once, while the first is still at work (`Supervisor.OnlyAFinishedCloseStops`,
  `OpenCodeWorker.OnlyAFinishedCloseIsQuiet`).
- A catalog sync that skips a current session whose materialization would fail completes where a rescan
  would not (`ClaudeCatalog.RefinementSurvivesFailures`, `ClaudeCatalog.SkippedFailureCompletes`).
- Reasoning deltas overwrite one another, and what a list held before them, instead of adding up
  (`CodexThread.DeltasAccumulate`, `CodexThread.ReasoningIsOverwritten`).
- `equalMembership` is map equality only for maps without empty directories
  (`OpenCodeCatalog.EqualityNeedsDirectories`); canonical directories are never empty.
- A saturated time difference is negated to itself, so a pair centuries apart can match
  (`SubagentMatch.MatchIsWithinWindow`, `SubagentMatch.DistantPastMatches`).
- The entries of a Claude transcript form a forest if and only if no record that shows something is its
  own native ancestor (`ClaudeForest.ForestUnlessShownCycle`, `ClaudeTree.CyclesSurvive`).

## Model

| member | source | states |
|---|---|---|
| KeyedLocks.EveryRunIsSafe | internal/projections/store.go:756-789 | For any number of threads and keys and every interleaving: one thread at most holds a key, everyone holding or waiting references the entry now in the map, `refs` counts exactly them, and an entry exists exactly while someone references it. |
| KeyedLocks.StepKeepsInv | internal/projections/store.go:766-789 | Each atomic part of lock and unlock keeps that, although unlock frees the mutex before it counts down and deletes. |
| KeyedLocks.NeverStuck | internal/projections/store.go:766-789 | A thread that waits can enter as soon as no one holds its key; otherwise the holder can proceed. |
| KeyedLocks.QuiescentIsEmpty | internal/projections/store.go:778-788 | When nobody holds or waits, the map is empty: the locker leaks no entry. |
| KeyedLocks.KeyedLocker.Register | internal/projections/store.go:766-776 | Creates or reuses the entry of a key and counts the caller. |
| KeyedLocks.KeyedLocker.Drop | internal/projections/store.go:781-787 | Counts the caller off and deletes the entry exactly when nobody is left. |
| KeyedLocks.KeyedLocker.Enter | internal/projections/store.go:778 | Acquires the entry's mutex when it is free. |
| KeyedLocks.KeyedLocker.Leave | internal/projections/store.go:780 | Frees the mutex before counting down. |
| SseMailbox.EveryRunIsSafe | internal/server/server.go:644-701 | In every interleaving of broadcasts, dequeue, resolve and flush: a key is signalled iff exactly one of its tokens is in the channel or in the reader's hand; a parked reader overlooks nothing unless the channel is full; each key's deliveries are in order; nothing is lost; pending is the newest. |
| SseMailbox.DrainedMeansUpToDate | internal/server/events.go:69-102 | When a parked reader finds the channel empty, nothing is pending and the last payload delivered for every key is the last one broadcast. |
| SseMailbox.KeylessMeetsKeyOnlyAtBareNames | internal/server/server.go:553-580 | A message without a key equals some key only if it is one of three bare names; frames starting with "event: " never do. |
| SseMailbox.OnlyBareNamesBreakSignalling | internal/server/server.go:644-664 | For every message: the token accounting survives its broadcast if and only if it is not a bare name or the channel is full. |
| SseMailbox.SseClient.Send | internal/server/server.go:644-664 | A broadcast replaces the pending payload of its key and signals it unless it is signalled or the channel is full; a message without key is queued or dropped. |
| SseMailbox.SseClient.Take | internal/server/server.go:670-682 | A token becomes the newest payload of its key, which stops being pending and signalled. |
| SseMailbox.SseClient.FlushPending | internal/server/server.go:687-701 | Signals what is pending and not signalled, until the channel is full, in whatever order the map yields. |
| SseMailbox.FlushMayBeOneStep | internal/server/server.go:687-701 | Any number of broadcasts without key, wherever they fall between the sends of a flush, leave what they would leave before or after the whole flush. |
| SseMailbox.SseClient.Drain | internal/server/events.go:69-102 | The undisturbed reader loop ends, emits as many frames as there was work, and leaves every key up to date. |
| SseMailbox.SseClient.Dequeue | internal/server/events.go:69-102 | Takes the oldest token. |
| SseMailbox.SseClient.Round | internal/server/events.go:69-102 | One round of the reader loop delivers one frame and shrinks the work left by one. |
| FingerprintCache.CacheIsRecencyList | internal/projections/store.go:715-754 | After every history of operations the cache is ordered by last use, shows for each path what it was last stored with, and stays within its cap. |
| FingerprintCache.OnlyTheLeastRecentlyUsedIsEvicted | internal/projections/store.go:737-744 | A path leaves the cache only if it is forgotten, or when a new path enters a full cache and its last use is older than that of every other path. |
| FingerprintCache.WarmPathsStay | internal/projections/store.go:715-745 | A stored path that is never idle while as many other paths as the cap are used stays cached. |
| FingerprintCache.Cache.Get | internal/projections/store.go:715-724 | On the map and linked list: finds what the recency list holds and moves it to the front, keeping map and list in bijection. |
| FingerprintCache.Cache.Put | internal/projections/store.go:726-745 | On the map and linked list: replaces in place or pushes in front and evicts the back, exactly as the recency list with its cap. |
| FingerprintCache.Cache.Forget | internal/projections/store.go:747-754 | Removes a path from the map and the list together. |
| FingerprintCache.Cache.Insert | internal/projections/store.go:737-744 | A new path is pushed in front, and the back evicted beyond the cap. |
| FingerprintCache.Cache.Overwrite | internal/projections/store.go:732-736 | A known path is overwritten in place and moved to the front. |
| AtomicWrite.Writer.WriteJSONLAtomic | internal/projections/store.go:522-587 | Undisturbed, a success leaves the file holding exactly the encoded entries, writing if and only if it did not hold them before, and leaves all else alone; a failure leaves the old file or the new one. Disturbed, a skip still means that the file held the entries when it was looked at. |
| AtomicWrite.Writer.ProjectionUnchanged | internal/projections/store.go:589-634 | Tells, by cached fingerprint or by hashing, whether the file holds the data; the cache then is what looking, forgetting and hashing leave, and gains a hash only if the stamps say that the file was not touched while it was read. |
| AtomicWrite.Writer.CacheFingerprint | internal/projections/store.go:636-649 | Stores the fingerprint of a written file exactly if what is found at its place is still that file with the same change stamp, and forgets the path otherwise. |
| AtomicWrite.CoherenceIsKept | internal/projections/store.go:715-754 | No cache operation, eviction included, makes the cache claim a wrong hash for a stamp. |
| AtomicWrite.LinesOfEncoded | internal/projections/store.go:522-528 | Reading the lines of an encoded file gives back the entries. |
| AtomicWrite.Writer.Compare | internal/projections/store.go:606-634 | Hashes the file between two looks at its stamps. |
| AtomicWrite.Writer.Commit | internal/projections/store.go:540-587 | Writes beside the file, renames and syncs; only the rename changes the file. |
| ProjectionEntries.DeduplicatedIsDistinct | internal/projections/store.go:465-487 | One entry is kept for every key. |
| ProjectionEntries.TheFirstIsKept | internal/projections/store.go:482-486 | Of several entries with one key the first is kept. |
| ProjectionEntries.SortIsSortedAndStable | internal/projections/store.go:489-493 | Local entries end up ordered by timestamp, those of equal timestamps in their order. |
| ProjectionEntries.StableOrderIsUnique | internal/projections/store.go:489-493 | There is only one stable order by timestamp, so the result does not depend on the sorting algorithm. |
| ProjectionStore.LocalMetadataIsConserved | internal/projections/store.go:197-242 | Over every run of replacements and appends a session's local keys are those it had and those appended to it. |
| ProjectionStore.ReplaceConserves | internal/projections/store.go:197-242 | A committed Replace, whichever duplicates it managed to remove, leaves a valid target with every local key of the session exactly once, in order, and changes no key of the session. |
| ProjectionStore.ReplaceInventsNothing | internal/projections/store.go:465-495 | Every local entry that survives was stored in a validated projection of the session. |
| ProjectionStore.ReplaceLeavesOne | internal/projections/store.go:222-240 | After a complete Replace the target is the only validated projection of its native id. |
| ProjectionStore.ReplaceIsFixpoint | internal/projections/store.go:197-242 | Repeating a Replace with the same builder output computes what the target already holds and finds no duplicate. |
| ProjectionStore.MutationFollowsReplace | internal/projections/store.go:313-368 | A change addressed to a projection that a Replace has removed finds the one that is left. |
| ProjectionStore.AppendAddsKey | internal/projections/store.go:291-311 | An append adds exactly the key of its entry. |
| ProjectionStore.OthersUntouched | internal/projections/store.go:447-449 | Operations on one session leave the files of every other alone. |
| ProjectionStore.Store.Replace | internal/projections/store.go:197-242 | Succeeds exactly when everything it relies on is in order; then the target is rebuilt, every validated duplicate is gone, and it wrote exactly if the target changed. Without a commit nothing changes. |
| ProjectionStore.Store.AppendLocal | internal/projections/store.go:291-340 | Appends to the path asked for, or, if that is gone, to the session's only projection; otherwise changes nothing. |
| ProjectionStore.Store.MutationTarget | internal/projections/store.go:313-368 | The path is revalidated under the lock; a vanished one is replaced only by a unique validated projection. |
| ProjectionStore.Store.ReadMetadata | internal/projections/store.go:123-158 | Accepts a file exactly if its first session line, with nothing malformed before it, is a header of this runtime and of the native id in the file name. |
| ProjectionStore.Store.ProjectionPaths | internal/projections/store.go:370-404 | The target first, then every validated duplicate; an invalid target is an error. |
| ProjectionStore.Store.ReadLocalEntriesFrom | internal/projections/store.go:465-495 | Gathers, deduplicates and sorts the local entries of all files, and fails on any malformed line. |
| ProjectionStore.Store.FindOthers | internal/projections/store.go:387-402 | The validated projections of the session in all other directories, in the order of the listing. |
| ProjectionStore.Store.ReadLocalEntries | internal/projections/store.go:497-518 | The local entries of one file, or an error if any line is malformed. |
| ProjectionStore.Store.AddUnseen | internal/projections/store.go:473-488 | Adds the entries whose key was not seen in this or an earlier file. |
| ProjectionStore.Store.RemoveDuplicates | internal/projections/store.go:222-240 | Revalidates and removes duplicates until one resists. |
| ProjectionStore.Store.Prepare | internal/projections/store.go:197-218 | Everything before the write: it fails exactly when something is not in order, and changes nothing. |
| ProjectionStore.Store.Commit | internal/projections/store.go:218-241 | Writes unless the target is as wanted, then removes the duplicates. |
| CodexToolActivity.ReadBack | internal/codex/projection.go:297-358 | For every thread: reading back its projection recovers, per turn id, exactly the identified items with their types and raw data, in order, first occurrences only. |
| CodexToolActivity.ReadBackExact | internal/codex/projection.go:297-358 | On distinct ids every turn comes back item for item. |
| CodexToolActivity.MergeKeepsTools | internal/codex/projection.go:374-414 | Merging into a native turn without tools keeps every captured tool item verbatim and in order if and only if no native item has the semantic key of a captured tool. |
| CodexToolActivity.ClashNeedsSeparatorInKind | internal/codex/projection.go:360-372 | Such a clash needs a NUL in an item type. |
| CodexToolActivity.RefreshKeepsTools | internal/codex/projection.go:230-286 | One refresh whose native turn lacks tools leaves that turn's tool items exactly as they were. |
| CodexToolActivity.ToolActivityIsDurable | internal/codex/projection.go:230-286 | So do any number of refreshes. |
| CodexToolActivity.NativeToolsWin | internal/codex/projection.go:374-414 | A native turn with tools of its own replaces what was captured, whatever local lines the file carries. |
| CodexToolActivity.BestOfOne | internal/codex/projection.go:297-358 | With one projection path the richer-wins rule is the identity. |
| CodexToolActivity.ProjectThread | internal/codex/projection.go:420-474 | The projection loops emit the header and every turn's entries, chained by parent. |
| CodexToolActivity.ReadCapturedToolTurns | internal/codex/projection.go:297-358 | The scan of all files keeps, per turn, the richest capture that has a tool. |
| CodexToolActivity.MergeCapturedToolTurns | internal/codex/projection.go:374-414 | The merge loops compute the merge that the lemmas are about. |
| CodexToolActivity.ScanFile | internal/codex/projection.go:300-342 | The scan of one file collects, per turn id, the items it carries. |
| CodexToolActivity.KeepRicher | internal/codex/projection.go:343-350 | Of two captures of a turn the one with more items is kept. |
| CodexToolActivity.MergeItemsLoop | internal/codex/projection.go:390-407 | The loop over one turn's items computes the merge of that turn. |
| CodexMergeIds.MergedIdsAreDistinct | internal/codex/projection.go:374-414 | For distinct captured and distinct native ids: a merged turn has distinct item ids if and only if no native item that survives the merge has the id of a captured item that is retained by it. |
| CodexMergeIds.SameKeysAreEnough | internal/codex/projection.go:360-414 | It is enough that no native item shares its id with a captured item under another semantic key, when the captured keys are distinct. |
| CodexMergeIds.IdsCanMeet | internal/codex/projection.go:374-414 | Inputs: a message read again with another text duplicates its id; so do two captured messages of one phase although the keys agree; and an id shared under another key does no harm when that captured item is replaced. |
| CodexMergeIds.MergeIsIdempotent | internal/codex/projection.go:374-414 | Merging the same captured turns twice is merging them once, for every thread. |
| Supervisor.EveryRunIsSafe | internal/opencode/supervisor.go:241-500 | Over every run, with any number of Closes and child exits at any point: one child at most is alive, a launch starts only after the previous child exited, only generations that passed health, stream and reconciliation are announced, `initial` gets at most one value, and once the first Close has finished every child has exited or was killed. |
| Supervisor.StepKeepsInv | internal/opencode/supervisor.go:281-500 | Every step of run, launch, Close and of the children keeps this. |
| Supervisor.OnlyAFinishedCloseStops | internal/opencode/supervisor.go:241-279 | A Close that returns can rely on everything being stopped if and only if it was the first, or the first has finished; a later one returns at once. |
| Supervisor.CloseReturnsEarly | internal/opencode/supervisor.go:241-279 | Two runs in which a later Close returns while a child is alive: before the first has killed it, and after. |
| Supervisor.StoppedForGood | internal/opencode/supervisor.go:113-279 | After the first Close has finished no child is started and no client published any more. |
| Supervisor.Supervisor.Start | internal/opencode/supervisor.go:113-135 | Only the first call before Close starts the loop. |
| Supervisor.Supervisor.CloseBegins | internal/opencode/supervisor.go:241-254 | Only the first Close proceeds; it cancels the loop and takes the child then recorded. |
| Supervisor.Supervisor.ClearAfterService | internal/opencode/supervisor.go:365-379 | Process and client are withdrawn when a generation ends. |
| SupervisorBudget.Run | internal/opencode/supervisor.go:281-396 | On every sequence of outcomes: between stable generations there are at most maxAttempts launches, each wait follows the backoff rule since the last stable boundary, and a finished run has sent exactly one initial value, by the `initialSent` flag alone. |
| SupervisorBudget.OneTrip | internal/opencode/supervisor.go:285-395 | One trip keeps the ledger of attempts and backoff. |
| SupervisorBudget.NeverStableGivesUp | internal/opencode/supervisor.go:281-396 | A run without a stable generation ends within its budget. |
| SupervisorBudget.BackoffClosedForm | internal/opencode/supervisor.go:307-314 | Every wait in closed form, for all bounds. |
| SupervisorBudget.BackoffIsCappedDoubling | internal/opencode/supervisor.go:307-314 | The k-th wait is min(Min times 2 to the k-1, Max) throughout if and only if Min is at most Max. |
| SupervisorBudget.NormalizeOrdersBounds | internal/opencode/supervisor.go:83-109 | When the defaulting orders the two bounds: if and only if the caller did or the minimum is within the default maximum. |
| SupervisorBudget.LongMinimum | internal/opencode/supervisor.go:83-109 | An input: a minimum of ten seconds set alone stays above the default maximum, and the first wait exceeds the maximum. |
| ClaudeWorker.EveryRunIsSafe | internal/claude/worker.go:227-975 | Over every run: one Done preview at most per turn generation, an empty control table after a fatal error or Close, no channel gets a second value, no accepted interrupt is forgotten, and each interrupt frame follows the prompt of its turn, which was delivered if and only if its write did not fail. |
| ClaudeWorker.LateInterrupts | internal/claude/worker.go:349-381 | Over every run: each interrupt frame precedes the prompts of all later turns if and only if no turn was ever published between the acceptance of an interrupt and its write. |
| ClaudeWorker.InterruptHitsTheNext | internal/claude/worker.go:349-381 | A run in which one was: the interrupt of the first turn is written after the prompt of the second, which is then running. |
| ClaudeWorker.RunningEndsProperly | internal/claude/worker.go:894-968 | Status leaves Running only through finishTurn of the current generation or through the fatal path. |
| ClaudeWorker.FatalIsAbsorbing | internal/claude/worker.go:947-968 | After a fatal error no turn starts and no preview is produced any more. |
| ClaudeWorker.Worker.Publish | internal/claude/worker.go:243-273 | A prompt starts the next turn or is refused, in one critical section under both mutexes. |
| ClaudeWorker.Worker.HandleResult | internal/claude/worker.go:752-790 | At most one convergence goroutine per turn; a success without assistant message is malformed. |
| ClaudeWorker.Worker.FinishTurn | internal/claude/worker.go:894-923 | Only the current generation of a live worker becomes idle and produces its preview. |
| ClaudeWorker.Worker.FailPendingLocked | internal/claude/worker.go:970-975 | Empties the control table, sending exactly one value on each channel in it. |
| ClaudeWorker.Worker.Accept | internal/claude/worker.go:349-359 | An interrupt is entered only for a running turn of a live worker. |
| ClaudeWorker.Worker.TakeControl | internal/claude/worker.go:820-862 | Whoever removes an interrupt from the table may answer it. |
| ClaudeWorker.Worker.ProtocolError | internal/claude/worker.go:947-968 | The first fatal error of an open worker sets the Error state and fails all pending interrupts. |
| ClaudeWorker.Worker.Close | internal/claude/worker.go:413-436 | The first Close empties the control table. |
| ClaudeCatalog.Catalog.Sync | internal/claude/catalog.go:74-221 | For every coherent cache and every directory, whatever fails: the incremental sync returns and leaves exactly what reparsing everything would if the sessions that it skips, all of them shown as they now are, could not fail; it keeps the cache coherent, and removes a projection only with full authority. |
| ClaudeCatalog.Catalog.SyncAll | internal/claude/catalog.go:74-221 | A run of syncs over a directory that changes in between, whatever fails: every sync lists, reports and leaves what one does that skips sessions whose projection is up to date; all of it is what rescanning each time would give if and only if no session that is skipped would fail. |
| ClaudeCatalog.RunRefines | internal/claude/catalog.go:74-221 | That exact condition, for runs of any length. |
| ClaudeCatalog.Catalog.ChooseFiles | internal/claude/catalog.go:84-130 | The fingerprint-cached loop chooses for each session what reparsing all files would, and reports a clean scan exactly when there was one. |
| ClaudeCatalog.Catalog.Prune | internal/claude/catalog.go:194-216 | Removes exactly the known projections of unlisted sessions that are not fresh. |
| ClaudeCatalog.BestIsNewest | internal/claude/catalog.go:119-130 | Among duplicates the newest transcript wins, then the smallest path. |
| ClaudeCatalog.CleanScanMeans | internal/claude/catalog.go:88-130 | A clean scan is one in which every file was read completely and no session has two. |
| ClaudeCatalog.PruningNeedsAuthority | internal/claude/catalog.go:182-216 | Whatever a sync manages to show, a projection is removed only after a complete clean scan in which every session was shown, and an equal confirming listing, if no listed file has its id and it is not fresh. |
| ClaudeCatalog.RefinementSurvivesFailures | internal/claude/catalog.go:139-221 | The incremental sync does what a rescan does if and only if it skips no session whose materialization would fail. |
| ClaudeCatalog.WhereFailuresShow | internal/claude/catalog.go:139-221 | Otherwise projections differ exactly if there was authority, every failing session is skipped and something stale can be removed, and completeness exactly if instead everything stale can be. |
| ClaudeCatalog.SkippedFailureCompletes | internal/claude/catalog.go:139-221 | An input: one session that could not be written again; a rescan is not complete, the sync that skips it is. |
| ClaudeCatalog.CompleteSyncIsExact | internal/claude/catalog.go:74-221 | Whenever a sync is complete, even by skipping a session that would fail: the projections it leaves that are not fresh are exactly the native sessions, each showing its transcript. |
| ClaudeCatalog.SyncIsIdempotent | internal/claude/catalog.go:74-221 | Syncing again with nothing changed, new projections being found this time, leaves the projections as they are if what it skips was shown before, and lists and reports the same if it skips the same failing sessions. |
| ClaudeCatalog.Catalog.SyncTwice | internal/claude/catalog.go:74-221 | With the cache: of two syncs with nothing changed in between the second returns and leaves exactly what the first did, whatever fails. |
| ClaudeCatalog.FailingStaySkipped | internal/claude/catalog.go:132-175 | A session that fails keeps its marks, so the next sync skips it if and only if this one did. |
| ClaudeCatalog.CoherentUnderChange | internal/claude/catalog.go:98-118 | Changes of the directory between syncs do not make the cache wrong. |
| ClaudeCatalog.Catalog.Remember | internal/claude/catalog.go:93-118 | A file is parsed again exactly if its fingerprint changed; an unreadable one changes nothing. |
| ClaudeCatalog.Catalog.Materialize | internal/claude/catalog.go:139-174 | A session known to be current is left alone; any other is rebuilt from its chosen file and only that file is marked. |
| ClaudeCatalog.Catalog.MaterializeAll | internal/claude/catalog.go:139-175 | After the loop every listed session shows its best file, whatever the order. |
| ClaudeCatalog.Catalog.DropUnseen | internal/claude/catalog.go:176-180 | Forgets the files that were not listed. |
| ClaudeTranscript.ScanAll | internal/claude/transcript.go:255-269 | Whatever windows a scanner reads a file in, it gets exactly the newline-terminated lines. |
| ClaudeTranscript.ScanCompleteLines | internal/claude/transcript.go:255-269 | Finds the first complete line, and skips an unterminated tail at the end of the file. |
| ClaudeTranscript.IdentitiesAreDistinct | internal/claude/transcript.go:152-157 | No two records of a transcript have the same identity, whatever their ids contain. |
| ClaudeTranscript.IdentitiesAreStable | internal/claude/transcript.go:109-160 | Appending to a transcript, even in the middle of a line, changes neither the records already read nor their identities. |
| ClaudeTranscript.ParseTranscript | internal/claude/transcript.go:113-160 | The scan loop yields the records with these identities. |
| ClaudeTree.Resolve | internal/claude/projection.go:225-235 | The search for a parent ends on every input, cyclic ones included, and yields only entries of known records. |
| ClaudeTree.ParentsAreEmitted | internal/claude/projection.go:236-243 | On every transcript each parent that an entry names is an entry. |
| ClaudeTree.AncestorsAreNative | internal/claude/projection.go:215-245 | On distinct uuids and an acyclic parent relation the way up from an entry is exactly: the earlier entries of its own record, then all entries of its native ancestors, nearest first, up to a root. |
| ClaudeTree.OneWayUp | internal/claude/projection.go:236-243 | That way is the only one. |
| ClaudeTree.ResolveIsNearest | internal/claude/projection.go:225-235 | On an acyclic transcript the search finds the nearest ancestor that shows something. |
| ClaudeTree.EntryIdsAreDistinct | internal/claude/projection.go:256-260 | Distinct identities give distinct entry ids. |
| ClaudeTree.CyclesSurvive | internal/claude/projection.go:215-245 | An input: two shown records that name each other as parents yield entries that do too. |
| ClaudeTree.ProjectTranscript | internal/claude/projection.go:215-245 | The loops of the projection emit these entries. |
| ClaudeForest.ForestUnlessShownCycle | internal/claude/projection.go:215-245 | On distinct uuids and identities every entry has a way up to a root if and only if no record that shows something is reached from its own parent by following native parents. |
| ClaudeForest.CycleHasNoRoot | internal/claude/projection.go:215-245 | A shown record that is its own native ancestor has no way up to a root. |
| ClaudeForest.AcyclicIsForest | internal/claude/projection.go:215-245 | In particular an acyclic parent relation gives a forest. |
| ClaudeForest.TwoRecordCycles | internal/claude/projection.go:215-245 | Inputs: of two records that name each other, one that shows something is enough to break the forest; if neither does, a shown child of one of them is a root. |
| CodexWorker.EveryRunIsSafe | internal/codex/worker.go:752-992 | Over every run, in-place rewrites included: the revisions of written projections strictly increase, each was made from the thread of its revision as it was recorded or as the shared writes at that revision left it, and shows that thread merged with tool activity; turn ids stay distinct. |
| CodexWorker.StepKeepsInv | internal/codex/worker.go:600-992 | Each critical section keeps that, the write that rewrites the worker's own turns at the same revision included. |
| CodexWorker.HistoryIsKept | internal/codex/worker.go:965-992 | Along every run the versions of a revision are only ever added to, those of an earlier revision are settled, and what was written stays written. |
| CodexWorker.SharedWriteAgrees | internal/codex/worker.go:949-992 | After a successful write of the worker's own turns, which leaves the revision as it is, the worker holds exactly what the projection shows of them. |
| CodexWorker.ShownIsRewritten | internal/codex/projection.go:374-414 | What the merge leaves in the turns it was given is what the projection shows of them; besides these it shows the captured turns that the thread lacks. |
| CodexWorker.ItemIdsStay | internal/codex/worker.go:600-992 | A step keeps item ids distinct in every turn if and only if it is not a shared write of captured items that do not fit the worker's turns. |
| CodexWorker.FittingRunsKeepItemIds | internal/codex/worker.go:600-992 | So item ids stay distinct over every run without such a write. |
| CodexWorker.RewrittenIsDistinct | internal/codex/projection.go:374-414 | The rewritten thread has distinct item ids if and only if the captured items of every turn fit it. |
| CodexWorker.OpeningCanDuplicate | internal/codex/worker.go:117-124 | An input: opening a session whose last message is read back with another text leaves the worker with two items of one id. |
| CodexWorker.DelayedReadNeedsQuiet | internal/codex/worker.go:912-961 | A read after turn/completed takes effect only if nothing changed since, and then keeps the completed and the newer active turn as the worker has them. |
| CodexWorker.ActiveStaysLive | internal/codex/worker.go:157-232 | The active turn is never a completed one, except if and only if a steer reply names a completed turn. |
| CodexWorker.SteerCanReviveTurn | internal/codex/worker.go:157-232 | A run in which it happens: the turn completes while the steer request is under way. |
| CodexWorker.Worker.CompleteTurn | internal/codex/worker.go:912-930 | A completed turn is merged, recorded, and its read is started, in one critical section. |
| CodexWorker.Worker.FinishRead | internal/codex/worker.go:931-959 | The guarded end of that read. |
| CodexWorker.Worker.MaterializeRevision | internal/codex/worker.go:965-992 | A snapshot is written only at its own revision and only once; a shared one takes the worker's own turns along, even when the write then fails. |
| CodexWorker.Worker.Refresh | internal/codex/worker.go:844-850 | A read that a notification asked for replaces the thread, which is then written from the worker's own turns. |
| CodexWorker.Worker.ScheduleMaterialize | internal/codex/worker.go:792-818 | Starts a timer exactly if the worker is open and none is pending. |
| CodexWorker.Worker.UpsertItemLocked | internal/codex/worker.go:693-708 | The nested loops insert or replace an item in its turn. |
| CodexWorker.Worker.ApplyDelta | internal/codex/worker.go:752-790 | A delta extends its item, creating it if needed, and moves the revision. |
| CodexWorker.Worker.StartTurn | internal/codex/worker.go:375-388 | A started turn becomes the active one and is no longer completed. |
| CodexWorker.Worker.ApplyLiveItem | internal/codex/worker.go:710-716 | A live item is recorded and its revision moved together. |
| CodexWorker.Worker.ApplyCompletedItem | internal/codex/worker.go:865-889 | A completed item is recorded and a snapshot of that very revision submitted. |
| CodexWorker.Worker.UpsertTurnLocked | internal/codex/worker.go:600-608 | The loop replaces the turn of that id or appends it. |
| CodexWorker.Worker.MergeCompletedTurnLocked | internal/codex/worker.go:672-691 | Merges a completed turn into the live one or appends it. |
| CodexDurability.ToolsSurviveRuns | internal/codex/worker.go:600-992 | Over every run of the worker with its projection file, in which each write reads back what the file holds and the catalog may refresh it in between: no tool item of a turn is lost if no write displaces one, and all stay verbatim and in order if no snapshot has tools in that turn. |
| CodexDurability.MoveKeepsHeld | internal/codex/worker.go:965-992 | One step keeps the tools that the file holds for a turn if and only if it does not replace the file with a snapshot that has tools in that turn but not all of these. |
| CodexDurability.RefreshKeepsHeld | internal/codex/projection.go:226-286 | The same for one refresh of the file. |
| CodexDurability.SessionsKeepTools | internal/codex/worker.go:69-155 | From the projection a session had before it was opened to any later one. |
| CodexDurability.SharedWriteSettles | internal/codex/worker.go:949-992 | After a write of the worker's own turns nothing of them is displaced until they change. |
| CodexDurability.LiveToolDisplaces | internal/codex/worker.go:820-889 | A run in which one is lost: a tool call, then a read requested by a notification, which lacks tools, then a second tool call before that read is written; the file keeps the second only. |
| CodexDurability.FileShowsLastWritten | internal/codex/worker.go:965-992 | After a successful write the file shows the projection recorded as written last. |
| CodexDurability.WorkerRuns | internal/codex/worker.go:600-992 | What the worker does in such a run is a run of the worker, so everything proved of those holds. |
| CodexThread.MergeIs | internal/codex/worker.go:610-634 | A merge of snapshots has every preferred item, every live item that the snapshot lacks, nothing else, and the live order first. |
| CodexThread.MergeKeepsDistinct | internal/codex/worker.go:610-634 | Its ids are distinct. |
| CodexThread.MergeIsIdempotent | internal/codex/worker.go:610-634 | Merging the same snapshot again changes nothing. |
| CodexThread.MergeItemSnapshots | internal/codex/worker.go:610-634 | The two loops over maps compute that merge. |
| CodexThread.PreservedIs | internal/codex/worker.go:636-670 | A read is taken turn by turn, except that protected turns stay exactly as they are locally, even if the read lacks them; ids stay distinct. |
| CodexThread.PreserveLocalTurns | internal/codex/worker.go:636-670 | The loops compute that, in whichever order the protected ids are visited. |
| CodexThread.MergeCompletedKeepsForm | internal/codex/worker.go:672-691 | Completing a turn leaves all others alone and ids distinct. |
| CodexThread.CompletingTwice | internal/codex/worker.go:672-691 | Completing a turn twice with the same snapshot is completing it once. |
| CodexThread.PutItemInKeepsForm | internal/codex/worker.go:693-708 | An item update leaves other turns alone, ids distinct and the item as given. |
| CodexThread.DeltasAccumulate | internal/codex/worker.go:752-790 | For every item: a stream of deltas is added to what its field shows if and only if, outside reasoning or for a single delta, the field shows no more than the string it holds, and, for several reasoning deltas, nothing was shown before the last. |
| CodexThread.StreamLeaves | internal/codex/worker.go:752-790 | What a stream of deltas leaves in the field of any item: the string it held and all deltas, or for reasoning a list of the last one alone. |
| CodexThread.ReasoningIsOverwritten | internal/codex/worker.go:752-790 | Inputs: of two reasoning deltas the second is left, a list that reasoning held already is lost to a single delta, and a plan keeps both of its deltas. |
| CodexCalls.EveryRunIsSafe | internal/codex/client.go:320-403 | Over every run: after the failure the pending table is empty, each call channel gets one value at most, which is the response to that call's id or the failure, and sends find their channel empty. |
| CodexCalls.TableStaysEmpty | internal/codex/client.go:320-331 | The failure is final: no later call enters the table. |
| CodexCalls.WaitingCanFinish | internal/codex/client.go:340-359 | A waiting call can finish once the client has failed; before that someone still owes it a value, or the reader is about to fail. |
| CodexCalls.Client.Take | internal/codex/client.go:233-236 | Whoever removes an entry may send on its channel. |
| CodexCalls.Client.MarkFailed | internal/codex/client.go:392-397 | The failure takes the whole table at once. |
| CodexCalls.Client.Begin | internal/codex/client.go:320-322 | Each call gets its own id and channel. |
| CodexCalls.Client.Register | internal/codex/client.go:323-330 | A call enters the table exactly if the client has not failed. |
| CodexCalls.Client.Remove | internal/codex/client.go:387 | A given-up call removes only its own entry. |
| CodexNotifications.EveryRunIsSafe | internal/codex/client.go:286-316 | Over every run: what was handled is a prefix of wire order, and a queue that is not empty has a token, an active drain or an enqueuer about to signal. |
| CodexNotifications.NeverStuck | internal/codex/client.go:286-316 | While something is queued, some step towards handling it is enabled. |
| CodexNotifications.Notifier.Drain | internal/codex/client.go:299-311 | An undisturbed drain handles everything queued, in order, and leaves no token. |
| CodexNotifications.Notifier.Append | internal/codex/client.go:287-289 | Appends at the end of the queue. |
| CodexNotifications.Notifier.Signal | internal/codex/client.go:290-293 | Leaves one token, without blocking. |
| CodexNotifications.Notifier.Next | internal/codex/client.go:301-309 | Takes the first notification, or ends the drain if there is none. |
| Utf8Bounds.ValidIsEncoded | internal/opencode/worker.go:416-425 | The validity that both cuts test is that of RFC 3629: the valid texts are exactly the encodings of sequences of scalar values. |
| Utf8Bounds.StreamingIsOneShot | internal/opencode/worker.go:392-425 | For valid deltas and any limit the preview built delta by delta is the bounded whole. |
| Utf8Bounds.BoundedIsLongest | internal/opencode/worker.go:416-425 | The cut keeps the longest valid tail within the limit. |
| Utf8Bounds.BoundedPrefixIsLongest | internal/claude/worker.go:720-732 | The cut keeps the longest valid head within the limit and gives up at most three bytes. |
| Utf8Bounds.AccumulatedIsValid | internal/claude/worker.go:705-718 | The accumulated preview is valid and within its limit. |
| Utf8Bounds.AccumulatingIsOneShot | internal/claude/worker.go:705-718 | It equals the head of the whole text if and only if no delta gets anything in once the text has outgrown the limit. |
| Utf8Bounds.AccumulatingCanSkip | internal/claude/worker.go:705-718 | A concrete stream in which a narrow character slips in behind a wide one that was left out. |
| Utf8Bounds.BoundedUTF8 | internal/opencode/worker.go:416-425 | The loop computes that cut. |
| Utf8Bounds.BoundedUTF8Prefix | internal/claude/worker.go:720-732 | The loop computes that cut. |
| Utf8Bounds.TailPreview.Append | internal/opencode/worker.go:392-402 | After every delta the preview is the bounded whole of what was streamed. |
| Utf8Bounds.HeadPreview.Settle | internal/claude/worker.go:691-694 | The assistant's own record replaces the preview by the longest head of its text. |
| OpenCodeWorker.EveryRunIsSafe | internal/opencode/worker.go:427-534 | Over every run, with any number of Closes: one refresh at a time; an open worker that is not refreshing started its last refresh after the last request and the last turn end; projections are handed over in order; no more turns are announced done than began; nothing refreshes after the first Close has returned. |
| OpenCodeWorker.RunningEndsProperly | internal/opencode/worker.go:427-534 | A running turn ends if and only if an open worker finishes it, an operation fails, or a fatal error strikes; a failed abort does not end it. |
| OpenCodeWorker.ErrorIsAbsorbing | internal/opencode/worker.go:271-534 | No operation leaves the Error state or changes its message. |
| OpenCodeWorker.ClosedIsQuiet | internal/opencode/worker.go:326-340 | After the first Close has returned nothing is refreshed or handed over. |
| OpenCodeWorker.OnlyAFinishedCloseIsQuiet | internal/opencode/worker.go:326-340 | A Close that returns can rely on no refresh being under way if and only if it was the first, or the first has returned. |
| OpenCodeWorker.CloseReturnsEarly | internal/opencode/worker.go:326-340 | A run in which a later Close returns while a refresh is under way. |
| OpenCodeWorker.NeverStuck | internal/opencode/worker.go:462-490 | A refresh under way can always take its next step. |
| OpenCodeWorker.Worker.ScheduleRefresh | internal/opencode/worker.go:447-461 | A request starts a goroutine exactly if the worker is open and none is running, and otherwise asks it to repeat. |
| OpenCodeWorker.Worker.Decide | internal/opencode/worker.go:480-488 | The loop repeats exactly if it was asked to and the worker is open. |
| OpenCodeWorker.Worker.FinishTurn | internal/opencode/worker.go:427-445 | Only a running turn of an open worker is finished, and then owes a refresh. |
| OpenCodeWorker.Worker.Begin | internal/opencode/worker.go:173-193 | A prompt starts a turn exactly if the worker is open and idle. |
| OpenCodeWorker.Worker.OperationError | internal/opencode/worker.go:493-504 | A failed operation makes a live worker idle with an error. |
| OpenCodeWorker.Worker.AbortError | internal/opencode/worker.go:506-520 | A failed abort only records its error. |
| OpenCodeWorker.Worker.Fatal | internal/opencode/worker.go:522-534 | The first fatal error of an open worker is final. |
| OpenCodeWorker.Worker.ObserveBusy | internal/opencode/worker.go:281-290 | A busy session is shown as running unless the worker is closed or failed. |
| OpenCodeWorker.Worker.Close | internal/opencode/worker.go:326-333 | Only the first Close proceeds. |
| OpenCodeCatalog.Catalog.SyncWithClient | internal/opencode/catalog.go:82-166 | Against a server that changes between calls: the result is complete exactly with full authority and no failed removal, and the projections are the hydrated ones, less the stale ones if there was authority. |
| OpenCodeCatalog.PruningNeedsAuthority | internal/opencode/catalog.go:110-157 | A projection is removed only if it existed before the first listing and is absent from it, every listed session was hydrated, and the confirming listing has the same ids and directories. |
| OpenCodeCatalog.CompleteSyncIsExact | internal/opencode/catalog.go:82-166 | A complete result leaves exactly the listed sessions, each showing messages of its own, and what others created meanwhile. |
| OpenCodeCatalog.Catalog.HydrateSession | internal/opencode/catalog.go:190-228 | A session is materialized exactly if every reply, message and part belongs to it in its directory. |
| OpenCodeCatalog.CatalogMembership | internal/opencode/catalog.go:230-246 | A membership is built exactly from listings without missing ids, bad directories or duplicates. |
| OpenCodeCatalog.EqualMembership | internal/opencode/catalog.go:248-258 | The loop compares sizes and looks up every left id on the right, where a missing one reads as empty. |
| OpenCodeCatalog.ComparingIsEquality | internal/opencode/catalog.go:248-258 | For memberships with real directories that comparison is map equality. |
| OpenCodeCatalog.EqualityNeedsDirectories | internal/opencode/catalog.go:248-258 | It is map equality against every other map if and only if no directory on the left is empty. |
| OpenCodeCatalog.Catalog.HydrateListed | internal/opencode/catalog.go:97-127 | The loop hydrates each well-formed session once, and reports a clean listing exactly when every session was hydrated. |
| OpenCodeCatalog.Catalog.Confirm | internal/opencode/catalog.go:129-145 | The confirming listing must be clean and have the very same membership. |
| OpenCodeCatalog.Catalog.Prune | internal/opencode/catalog.go:146-156 | Removes exactly the projections the initial scan had found and the listing did not mention, as far as they can be removed. |
| SubagentMatch.MergeSubagentSummaries | internal/server/subagents_api.go:313-346 | The nested loops over the marked children compute the merged list. |
| SubagentMatch.ChoicesAreGreedy | internal/server/subagents_api.go:316-326 | Each parent gets the nearest match its predecessors left, and none only if they left none. |
| SubagentMatch.NoChildTwice | internal/server/subagents_api.go:315-330 | No child is used by two parents. |
| SubagentMatch.MatchingIsMaximal | internal/server/subagents_api.go:316-345 | A parent left alone and a child left over never match. |
| SubagentMatch.MergedLength | internal/server/subagents_api.go:313-346 | The list has all parents and children, less one for each match. |
| SubagentMatch.MergedAt | internal/server/subagents_api.go:327-338 | The i-th entry is the i-th parent, with session, project, later activity and running status from its child, or unchanged. |
| SubagentMatch.LeftoverAt | internal/server/subagents_api.go:340-345 | Every unused child is listed on its own, in order. |
| SubagentMatch.LeftoverOnlyUnused | internal/server/subagents_api.go:340-345 | Nothing else is. |
| SubagentMatch.MatchIsWithinWindow | internal/server/subagents_api.go:291-311 | A match lies within the window if and only if the difference of its times does not saturate below. |
| SubagentMatch.DistantPastMatches | internal/server/subagents_api.go:291-311 | A pair that matches although its times are centuries apart. |
| SubagentMatch.FindMatch | internal/server/subagents_api.go:317-326 | The inner loop finds the nearest unused match. |

## Left out

- JSON, SHA-256 and paths: entries are abstract values with their encoding as an identity, the hash is an injective constructor, and paths are already cleaned; a file system call either works or fails as a parameter says.
- Time: timers, timeouts and heartbeats are steps that may happen; the clock of `OpenCodeWorker` only numbers steps.
- Integers are unbounded: revisions, request ids and turn generations do not wrap.
- AtomicWrite.Writer.WriteJSONLAtomic: a change stamp determines the content of a file, and a file with the identity of the one just written holds what was written; a file system that reuses both is not modelled.
- ProjectionStore.Store.Replace: the builder emits no local entry kinds, which the conservation lemmas ask for as `NativeOnly`; the write itself is the one of `AtomicWrite`, here a single assignment.
- ProjectionStore.Store.AppendLocal: a torn append is not modelled, nor are `Remove` and `Find`.
- KeyedLocks.EveryRunIsSafe: the two mutexes are assumed to be fair only as far as that a free one can be taken.
- SseMailbox.EveryRunIsSafe: runs broadcast no bare key name; one client is modelled, since clients share nothing. Heartbeats and the status snapshot are left out.
- CodexToolActivity.ToolActivityIsDurable: one projection path, turn ids not empty, and no item type with a NUL in it. Native messages of one phase may collapse in a merge; of them only the ids are spoken of, in `CodexMergeIds`.
- CodexToolActivity.ProjectThread: the presentation of items (text, tool results, usage) is left out; only identity, raw data and parent links are kept.
- CodexWorker.EveryRunIsSafe: that every revision is eventually written is not claimed, since some handlers move the revision without scheduling a write. A job may be tried any number of times, which allows more runs than the program has. Preview text, callbacks and the status channel are left out.
- CodexDurability.ToolsSurviveRuns: one projection path; a snapshot without tools in a turn does not reuse ids or semantic keys of captured tools there (`NoReuse`), as `CodexToolActivity.ClashNeedsSeparatorInKind` explains for keys.
- CodexThread.MergeItemSnapshots: snapshots from the wire have distinct item ids.
- CodexCalls.EveryRunIsSafe: writing and decoding are steps that work or fail; the answers to server requests are left out.
- CodexNotifications.EveryRunIsSafe: once the client is done the dispatcher may leave notifications unhandled, as it does in the program.
- Supervisor.EveryRunIsSafe: event and availability subscriptions are left out, and nothing is claimed about the order in which subscribers see availability.
- SupervisorBudget.Run: an outcome for each trip is given in advance; `Supervisor` covers its interleavings.
- ClaudeWorker.EveryRunIsSafe: stream records other than init, result and control responses, and the reading of the projection during convergence, are left out.
- ClaudeCatalog.Catalog.Sync: a session that fails to materialize leaves its projection as it was; files do not change while one Sync runs, cancellation is left out, and only runs of Sync are covered: `RefreshPath` can mark two files of one session as materialized.
- ClaudeTranscript.ParseTranscript: which lines are records of the session, and titles, models and times, are a parameter or left out; so is the limit on the length of a line.
- ClaudeTree.ProjectTranscript: the content of entries is left out; a record has a number of entries.
- OpenCodeWorker.EveryRunIsSafe: prompts, models and previews are left out beyond the status they set; `Utf8Bounds` has the previews.
- OpenCodeCatalog.Catalog.SyncWithClient: returns the set of hydrated ids instead of a sorted list of projection names.
- Utf8Bounds.StreamingIsOneShot: deltas are valid UTF-8, as strings decoded from JSON are.
- SubagentMatch.MergeSubagentSummaries: the formatted time of the last activity, and sorting afterwards, are left out.
- internal/codex/catalog.go: mostly client calls with other pruning rules; the Claude and OpenCode catalogs carry the theorem.
- HTTP handlers, authentication, push, peers, self-update, settings, file listing, the chat queue and session creation: plumbing, or invariants that rest on stores outside the modelled files.
