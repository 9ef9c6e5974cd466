# DSHKer Launcher: verified core

A Dafny model of the parts of the DSHKer Launcher whose correctness spans whole runs. Every theorem is a
statement over all inputs, all interleavings or all reachable states.

- **Token usage** (`SessionEvents`, `UsageFold`, `UsageRuns`, `UsageConservation`, `UsageReport`, `UsageCache`,
  `UsageReading`, with `Strings`):
  the fold of an append-only session log, what it computes said without folding, resuming from a checkpoint,
  the balance between totals and calendar, the cache under appends that race with reads, and the whole report over it.
- **Version switch** (`VersionStore`): build, check, flip the pointer and prune, with a failure or crash at every await.
- **State machines** (`UpdateService`, `WorkbenchGuests`, `RuntimeFeed`): asynchronous code cut at its awaits. Each
  piece is a class method that is a function on the object's value and keeps the invariant of the runs, which interleave
  those functions freely.
- **Plugin sources** (`PluginSources`): install, adopt, update and uninstall against a profile the launcher does not own.
- **Ownership** (`PathText`, `OwnershipTopology`, `RegistryText`, `WorkspaceDirectories`): the string tests on paths, what an accepted
  registry guarantees, and the transactional creation of workspace directories.
- **Algorithms** (`VersionOrder`, `WindowPlacement`, `ReleaseNotes`): version precedence and ranges, window placement
  over several displays, and release-note sanitising.

`dafny verify dfyconfig.toml` checks the whole project.

## Where the code and its promises differ

- A log line that is the JSON value `null` makes `foldSessionLog` throw, although its comment says an unparsable
  line is skipped. The model follows the code: such a line is `Poison`, and `UsageFold.NullLineThrows` shows that a text with one has no fold.
- The path overlap test has two blind spots: a trailing separator, and a first differing segment that begins with
  two dots. `PathText.OverlapTestIsExact` gives the exact condition, `RegistryText.TwinRootsShareDirectory` and
  `RegistryText.DottedRootLiesInHome` give accepted registries whose directories are nested, and
  `RegistryText.ResolvedPathsAreApartIff` says exactly which registries are affected.
- `adoptPlugin` records the adopted name even when the accepted `add` bound another one; uninstalling then deletes a
  directory the profile refers to. `PluginSources.UnfaithfulAdoptIsReachable` and `PluginSources.UnfaithfulAdoptBreaks`
  show the run, and `PluginSources.AdoptStaysIntactIff` is the exact condition: the add binds the adopted name, or that name
  has a record already, so that recording it again is refused.
- A further `||` alternative does not always widen a range: one with an unsupported comparator, reached first, raises an
  error (`VersionOrder.UnsupportedHides`, exact condition in `VersionOrder.AlternativeWidens`).
- A late reply is not always harmless: one that fails validation rejects whatever request its sender has pending, before
  id and sequence are compared (`WorkbenchGuests.StaleAnswerRejectsNext`, exact condition in
  `WorkbenchGuests.LateReplySettlesIff`). The guest's own preload checks replies before sending them, so it takes a guest
  that sends past it.
- Restarting the console feed while a drain awaits leaves two timer chains, and a record can be forwarded twice
  (`RuntimeFeed.RestartDuringDrainDuplicates`); `RuntimeFeed.StartDeliversIff` is the exact condition.

## Assumptions

- Session logs only grow, by whole compressed frames of whole lines; a frame decodes to its own text whatever follows
  it, as section 3.1 of RFC 8878 has it for concatenated frames. The cache document reads back as written, or is lost.
- A refused DSH plugin command leaves the profile as it was; an accepted `add` binds one name to the new directory, an
  accepted `remove` drops the name and an accepted `update` keeps every binding.
- Operations other than version switches leave version directories, their registrations and the version record alone,
  also the plugin commands that DSH runs inside the version in use.
- Callbacks of the console feed do not re-enter it. The core answers a console request with its log from the asked
  cursor up to the cursor it reports.
- Random directory names are never drawn twice. That a late reply cannot settle a request of another registration of
  the same guest by repeating its id rests on distinct random request ids, and the lemma says so in its precondition.
- Nobody else changes the directories while a workspace is created.

## Model

| member | source | states |
|---|---|---|
| `SessionEvents.CountOf` | electron/main/managed/session-usage-reader.ts:637-640 | a reported count is the number without its fraction; anything negative or not a number counts zero |
| `SessionEvents.BucketsOf` | electron/main/managed/session-usage-reader.ts:624-634 | no reported bucket is negative, whatever the JSON holds |
| `SessionEvents.KindDecides` | electron/main/managed/session-usage-reader.ts:509-545 | the type of a line decides which kind of event it is, and reports need more than the type |
| `SessionEvents.ReportIff` | electron/main/managed/session-usage-reader.ts:608-635 | a line is a report exactly when a usage object stands in its usage chunk or finalized message and turn and step are numbers, found by their paths; its parts come from there |
| `SessionEvents.FirstTextIsFirst` | electron/main/managed/session-usage-reader.ts:534-537 | the prompt is the excerpt of the first text block that has one |
| `SessionEvents.NoTextNoPrompt` | electron/main/managed/session-usage-reader.ts:534-537 | without such a block there is no prompt |
| `SessionEvents.EventRoundTrip` | electron/main/managed/session-usage-reader.ts:506-635 | every event written as JSON is read back the same, each field from its own key, a usage report from a streaming chunk and from a finalized message alike |
| `SessionEvents.OtherFieldsDoNotMatter` | electron/main/managed/session-usage-reader.ts:506-513 | five keys of a line decide what it means; any other field may be added or changed |
| `SessionEvents.EventsAppend` | electron/main/managed/session-usage-reader.ts:498-505 | appending text after a whole line appends its events and changes no earlier one; a `null` line is in the whole exactly when it is in a part |
| `UsageFold.AddDaily` | electron/main/managed/session-usage-reader.ts:123-148 | adding to or subtracting from a day and model never leaves an all-zero entry |
| `UsageFold.Reseed` | electron/main/managed/session-usage-reader.ts:493-496 | the seeding loop adds exactly the saved rows |
| `UsageFold.TakeEvent` | electron/main/managed/session-usage-reader.ts:506-569 | the in-place update of one event is the fold step on values |
| `UsageFold.FoldLines` | electron/main/managed/session-usage-reader.ts:498-570 | the line loop folds the events of all lines in order, and throws exactly when some line is `null` |
| `UsageFold.ListRows` | electron/main/managed/session-usage-reader.ts:583-585 | the saved rows list every entry of the map once |
| `UsageFold.FoldSessionLog` | electron/main/managed/session-usage-reader.ts:461-589 | the whole call saves the fold of the text from its seed, or throws exactly on a `null` line |
| `UsageFold.RestoreSaved` | electron/main/managed/session-usage-reader.ts:475-496 | a checkpoint restores the very fold it was saved from, whatever the order of its rows |
| `UsageFold.ResumeIsExact` | electron/main/managed/session-usage-reader.ts:461-589 | folding b seeded with the saved fold of a is folding a + b from scratch, in every field, whenever a is empty or ends with a newline |
| `UsageFold.CutLineIsLost` | electron/main/managed/session-usage-reader.ts:498-505 | any turn line cut into two halves that do not parse is lost by a resume between them |
| `UsageFold.ResumeNeedsWholeLines` | electron/main/managed/session-usage-reader.ts:498-505 | such a cut exists in JSON: a text that ends inside `{"type":"turn/start"}` |
| `UsageFold.NullLineThrows` | electron/main/managed/session-usage-reader.ts:502-506 | a line `null` anywhere makes the fold of the whole text throw |
| `UsageRuns.FoldSumsRuns` | electron/main/managed/session-usage-reader.ts:498-570 | for every event sequence the totals, every calendar entry and the replacement slot are those of the declarative reading: maximal runs of reports of one step, not broken by another step's report or a matching retry, each counting its last report only |
| `UsageRuns.ReportGoesTo` | electron/main/managed/session-usage-reader.ts:565-605 | the report at any place of a log has a group exactly when its time is there and not negative; that is the day of the time and the model of the last header before it that names one, else "unknown" |
| `UsageRuns.RetryGoesTo` | electron/main/managed/session-usage-reader.ts:538-543 | a retry anywhere in a log is the retry of the step it names |
| `UsageRuns.FreshReportIsFiled` | electron/main/managed/session-usage-reader.ts:561-568 | a report that replaces nothing is added to the totals and to the calendar entry of that day and model, and to no other entry |
| `UsageRuns.FoldIdentifies` | electron/main/managed/session-usage-reader.ts:509-537 | turns and steps are counted; id, creation time, current model and provider are the last given, the first model and first prompt with text the first given |
| `UsageConservation.FoldConserves` | electron/main/managed/session-usage-reader.ts:551-569 | per bucket, totals are the sum of the daily map plus the runs whose effective report has no valid time, after every log |
| `UsageConservation.SlotCovered` | electron/main/managed/session-usage-reader.ts:547-560 | what a later report subtracts is contained in the totals and in its group's entry, so nothing is negative between the subtraction and the addition |
| `UsageConservation.FoldNonNegative` | electron/main/managed/session-usage-reader.ts:123-148 | no total and no daily entry of any log is negative, although both are reached by subtracting |
| `UsageConservation.MergeConserves` | electron/main/managed/session-usage-reader.ts:286-291 | over any number of logs and the sessions saved from them, every day and model of the merged map is what the runs of that group contribute, and totals are the merged map plus the untimed runs |
| `UsageReport.PageLimit` | electron/main/managed/session-usage-reader.ts:192-195 | as many as asked up to 500, 500 for more, and 50 for anything that is not a positive safe integer |
| `UsageReport.NewestFirst` | electron/main/managed/session-usage-reader.ts:275-276 | sorting lists every readable session once, the most recent first |
| `UsageReport.NewestIsStable` | electron/main/managed/session-usage-reader.ts:276 | sessions that changed at the same moment keep their order |
| `UsageReport.ReadableMeans` | electron/main/managed/session-usage-reader.ts:267-275 | exactly the results that could be read are kept, each with its time, in their order |
| `UsageReport.NewestTotals` | electron/main/managed/session-usage-reader.ts:277-285 | totals do not depend on that order |
| `UsageReport.MergeDaily` | electron/main/managed/session-usage-reader.ts:286-291 | the nested merge loops add every row of every session |
| `UsageReport.Summarize` | electron/main/managed/session-usage-reader.ts:267-303 | totals, counts and merged map cover every readable session and the rest is counted as unreadable; the limit only cuts the page, a prefix of the sorted sessions |
| `UsageReport.PageShowsNewest` | electron/main/managed/session-usage-reader.ts:276-298 | no session left off the page is newer than one on it |
| `UsageCache.Decompress` | electron/main/managed/session-usage-reader.ts:44-58 | the frame loop terminates on remaining bytes and yields the frames decoded from its offset and the offset reached |
| `UsageCache.DecodeRest` | electron/main/managed/session-usage-reader.ts:44-58 | decoding from the end of any whole-frame prefix yields exactly the text of the rest and consumes the whole file |
| `UsageCache.ReadSession` | electron/main/managed/session-usage-reader.ts:222-259 | a read decodes from the cached offset exactly when the file grew, and caches the size it saw before reading with the offset it reached |
| `UsageCache.ReadLog` | electron/main/managed/session-usage-reader.ts:203-259 | whatever the file holds: an unchanged size and time is served from the cache, a log that changed without growing is folded from the start, and only a longer one is resumed |
| `UsageCache.HitIsWhole` | electron/main/managed/session-usage-reader.ts:205-221 | an entry whose size equals the file's is the fold of the whole log, although its size may be older than its offset |
| `UsageCache.ReadIsFull` | electron/main/managed/session-usage-reader.ts:222-250 | resumed or not, a file read gives the full fold of what it read |
| `UsageCache.EveryReadIsExact` | electron/main/managed/session-usage-reader.ts:200-259 | over every interleaving of appends, touches, overlapping reads and cache writes, each finished read reports the full fold of the log at a moment between its stat and its file read |
| `UsageReading.ReportConserves` | electron/main/managed/session-usage-reader.ts:191-304 | for any number of logs read through their caches, the reported totals and calendar are what the runs of the logs contribute as each stood between its stat and its file read, totals are the calendar plus the untimed runs, and exactly the logs with a `null` line are unreadable |
| `VersionStore.LauncherVersions.ReportOperation` | electron/main/managed/launcher-operation-reporter.ts:54-72 | an operation is admitted exactly when none is active and admission is not blocked; admission keeps the law |
| `VersionStore.LauncherVersions.Settle` | electron/main/managed/launcher-operation-reporter.ts:86-88 | whatever its outcome, an operation gives its slot back, and the law is kept |
| `VersionStore.LauncherVersions.ProbeTarget` | electron/main/managed/launcher-version-store.ts:116-118 | only a complete commit that is ready skips preparation; keeps the law |
| `VersionStore.LauncherVersions.ReadCurrentPointer` | electron/main/managed/launcher-version-store.ts:119-125 | the operation goes on exactly when the record can be read, is absent or well formed, and does not name its commit; nothing else changes; keeps the law |
| `VersionStore.LauncherVersions.RemoveInterrupted` | electron/main/managed/launcher-version-store.ts:169-212 | the target loses directory and registration, or the operation ends with anything left of either; keeps the law |
| `VersionStore.LauncherVersions.CheckAncestry` | electron/main/managed/launcher-version-store.ts:129-141 | a commit that is not on the main branch ends the operation with every directory as it was; keeps the law |
| `VersionStore.LauncherVersions.RunBuildStep` | electron/main/managed/launcher-version-store.ts:142-151 | worktree, install, build and reconcile follow each other; each may leave the target in any state and no other directory or registration changes; keeps the law |
| `VersionStore.LauncherVersions.VerifyBuilt` | electron/main/managed/launcher-version-store.ts:152-158 | finishing the build steps is not enough: an operation that goes on has read its directory as ready; keeps the law |
| `VersionStore.LauncherVersions.ValidateProfile` | electron/main/managed/launcher-version-store.ts:162-164 | an incompatible profile ends the operation with the pointer as it was; keeps the law |
| `VersionStore.LauncherVersions.WritePointer` | electron/main/managed/launcher-version-store.ts:165 | the version record names the commit, or is as it was; keeps the law |
| `VersionStore.LauncherVersions.ListInactive` | electron/main/managed/launcher-version-store.ts:290-306 | what is listed are exactly the version directories other than the kept one; keeps the law |
| `VersionStore.LauncherVersions.PruneOne` | electron/main/managed/launcher-version-store.ts:263-287 | each listed directory is deleted or left in any state; a failure is not fatal, and at the end git forgets missing worktrees; keeps the law |
| `VersionStore.LauncherVersions.PrepareTarget` | electron/main/managed/launcher-version-store.ts:118-158 | the operation reaches the compatibility check exactly when the record is readable and does not name the commit, every step succeeds and the last leaves the target ready; no other directory or registration changes |
| `VersionStore.LauncherVersions.PublishTarget` | electron/main/managed/launcher-version-store.ts:162-166 | checking, flipping and pruning: the version record moves exactly when both the check and the write succeed, and the operation ends |
| `VersionStore.LauncherVersions.PruneInactive` | electron/main/managed/launcher-version-store.ts:263-287 | the deletion loop ends, touches only listed directories, and deletes all of them when no deletion fails |
| `VersionStore.LauncherVersions.MaterializeVersion` | electron/main/managed/launcher-harness-service.ts:618-650 | one switch from admission to end, for all answers of its awaits: exactly when the record then names the commit, said of the old state and the answers; a commit put in use is ready, a switch that fails changes no other directory, one without any failure leaves no other version; the law holds and the slot is free again |
| `VersionStore.StepKeeps` | electron/main/managed/launcher-version-store.ts:108-166 | every step keeps the invariant, leaves the named directory and its registration alone, and moves the pointer only to a ready directory |
| `VersionStore.SwitchIsCrashSafe` | electron/main/managed/launcher-harness-service.ts:618-650 | in every run with failures and crashes anywhere, the pointer moves only to a commit that passed readiness and then compatibility in the same operation with nothing touching it since, no directory is touched while it is named, and at most one operation is active |
| `VersionStore.NamedStaysReady` | electron/main/managed/launcher-version-store.ts:98-107 | if the named version is ready at the start, or none is named, it is so at every later moment |
| `VersionStore.OverlapBreaksTheLaw` | electron/main/managed/launcher-operation-reporter.ts:59-61 | without the reporter's exclusion ten steps from a store at rest let one switch delete the version another has just put in use |
| `UpdateService.LauncherUpdateService.BeginCheck` | electron/main/launcher-update-service.ts:103-113 | a check moves the generation and drops the address, unless one is pending; keeps the invariant |
| `UpdateService.LauncherUpdateService.AnswerCheck` | electron/main/launcher-update-service.ts:247-290 | an update is shown exactly for a newer release whose asset address fits it, and then that address is cached; keeps the invariant |
| `UpdateService.LauncherUpdateService.ClearCheck` | electron/main/launcher-update-service.ts:108-111 | a settled check clears itself only; keeps the invariant |
| `UpdateService.LauncherUpdateService.BeginDownload` | electron/main/launcher-update-service.ts:116-165 | a download begins only for the shown update and only once; while an operation is active nothing changes unless a handoff is retried, and only a retried handoff opens at once; keeps the invariant |
| `UpdateService.LauncherUpdateService.ReportProgress` | electron/main/launcher-update-service.ts:175-178 | progress of another generation changes nothing; keeps the invariant |
| `UpdateService.LauncherUpdateService.FinishFetch` | electron/main/launcher-update-service.ts:179-185 | a completed download goes on to the handoff; one of another generation leaves state and address alone; keeps the invariant |
| `UpdateService.LauncherUpdateService.FailFetch` | electron/main/launcher-update-service.ts:186-198 | a failed download of another generation leaves the state alone; nothing is opened; keeps the invariant |
| `UpdateService.LauncherUpdateService.OpenDownloaded` | electron/main/launcher-update-service.ts:201-216 | the installer is opened only for the current update and while no operation is active |
| `UpdateService.LauncherUpdateService.AnswerOpen` | electron/main/launcher-update-service.ts:220-232 | the current update is shown as downloaded after a success and as a failed handoff after an error; an error emits nothing, success quits right after it; another generation leaves state and address alone; keeps the invariant |
| `UpdateService.LauncherUpdateService.ClearDownload` | electron/main/launcher-update-service.ts:139-142 | a settled download clears itself only; keeps the invariant |
| `UpdateService.CachedExactlyWhileAvailable` | electron/main/launcher-update-service.ts:103-144 | in every run the installer address is cached exactly while an update is shown, it is that update's, and at most one check and one download are in flight |
| `UpdateService.HandoffIsLawful` | electron/main/launcher-update-service.ts:167-233 | in every run an installer is opened only after its own download completed in the same generation and with no active operation, and quitting directly follows an open that succeeded |
| `UpdateService.DownloadedWasOpened` | electron/main/launcher-update-service.ts:220-230 | in every run an update is shown as downloaded only after its own installer was opened in the same generation |
| `UpdateService.FetchOutcome` | electron/main/launcher-update-service.ts:179-198 | in every run an ended download of the current update is shown as failed, is held back by an active operation, or is opened |
| `UpdateService.OpenOutcome` | electron/main/launcher-update-service.ts:214-232 | in every run, how the current update is shown after its open succeeded or failed |
| `UpdateService.RequestOutcome` | electron/main/launcher-update-service.ts:116-144 | in every run a download request does nothing, starts a download, or hands over again what was downloaded, exactly by the shown state and whether an operation is active |
| `UpdateService.FailedOpenIsRetried` | electron/main/launcher-update-service.ts:125-138 | after a failed open the next request with no active operation opens the installer again |
| `UpdateService.StaleDownloadIsInert` | electron/main/launcher-update-service.ts:167-245 | once the generation has moved past a download's, nothing it still does changes the state or the address or opens an installer |
| `UpdateService.EventsGrow` | electron/main/launcher-update-service.ts:201-233 | what was opened, succeeded or quit is never taken back |
| `ReleaseNotes.NotesAreClean` | electron/main/launcher-update-service.ts:493-505 | accepted notes have no carriage return or stripped control, no three newlines in a row, no outer white space and at most 4001 code units |
| `ReleaseNotes.NotesAreIdempotent` | electron/main/launcher-update-service.ts:493-505 | sanitising accepted notes again changes nothing, also after truncation |
| `ReleaseNotes.UnchangedIffClean` | electron/main/launcher-update-service.ts:493-505 | a body within the limit is shown unchanged exactly when it is clean |
| `ReleaseNotes.NotesKeepVisible` | electron/main/launcher-update-service.ts:493-505 | no visible character is lost, added or reordered up to the truncation point, and a body has no notes exactly when nothing in it is visible |
| `ReleaseNotes.NotesShow` | electron/main/launcher-update-service.ts:493-505 | what is shown of the collapsed text is its core without outer white space, or of a longer one the longest core within 4000 code units and an ellipsis |
| `ReleaseNotes.NewlinesConcat` | electron/main/launcher-update-service.ts:496 | line endings are normalized piece by piece, wherever two pieces do not split one |
| `ReleaseNotes.NewlinesPieces` | electron/main/launcher-update-service.ts:496 | CR LF and CR become a line feed, and any other unit stays |
| `ReleaseNotes.StripPieces` | electron/main/launcher-update-service.ts:498 | a single unit is stripped exactly if it is a control |
| `ReleaseNotes.StripConcat` | electron/main/launcher-update-service.ts:498 | stripping works unit by unit |
| `ReleaseNotes.ControlsAre` | electron/main/launcher-update-service.ts:497-498 | the stripped controls are C0, delete and C1 without tab and line endings |
| `ReleaseNotes.CollapseConcat` | electron/main/launcher-update-service.ts:499 | every run of line feeds is cut to two, and nothing else is touched |
| `ReleaseNotes.EndingsDoNotMatter` | electron/main/launcher-update-service.ts:496 | CR LF and bare CR bodies give the notes of the same body with line feeds |
| `WorkbenchGuests.Workbench.RegisterGuest` | electron/main/workbench-guests.ts:44-69 | an admissible guest whose id is free gets a fresh registration that is not ready, any other changes nothing; keeps the invariant and every outcome |
| `WorkbenchGuests.Workbench.InvalidateGuest` | electron/main/workbench-guests.ts:70-81 | readiness is withdrawn and no request of the registration stays pending; keeps the invariant and every outcome |
| `WorkbenchGuests.Workbench.RemoveGuest` | electron/main/workbench-guests.ts:90-95 | the registration leaves the table, no other does, and what is settled by it is rejected |
| `WorkbenchGuests.Workbench.AskGuest` | electron/main/workbench-guests.ts:102-162 | a request comes into being only for a ready guest of the same scope with none pending and no abort; whatever it settles is rejected |
| `WorkbenchGuests.Workbench.FinishRequest` | electron/main/workbench-guests.ts:145-153 | at most this request settles, and only while it is the pending one of its registration; a rejection keeps the invariant |
| `WorkbenchGuests.Workbench.ExpireRequest` | electron/main/workbench-guests.ts:129-144 | a timeout or abort settles at most its own request, which is settled afterwards, and a guest that cannot be told is no longer ready |
| `WorkbenchGuests.Workbench.ReceiveReady` | electron/main/workbench-guests.ts:201-220 | a message that is not admitted changes nothing; any other settles requests only by rejecting them |
| `WorkbenchGuests.Workbench.ReceiveReply` | electron/main/workbench-guests.ts:222-245 | what a reply resolves is a request whose id, sequence and target it repeats; keeps the invariant and every outcome |
| `WorkbenchGuests.Workbench.DisposeAll` | electron/main/workbench-guests.ts:164-169 | the table is empty and every request is settled |
| `WorkbenchGuests.AtMostOnePending` | electron/main/workbench-guests.ts:102-162 | in every run two unsettled requests of one guest id are the same request |
| `WorkbenchGuests.SettlesAtMostOnce` | electron/main/workbench-guests.ts:145-153 | in every run a settled request keeps its first outcome for good |
| `WorkbenchGuests.OnlyExactReplyResolves` | electron/main/workbench-guests.ts:222-245 | a request is resolved only in the step of a reply from its own guest that repeats its id, sequence and exact target |
| `WorkbenchGuests.AskOutcome` | electron/main/workbench-guests.ts:109-161 | in every run a request comes into being exactly for a ready guest of the scope with nothing pending, if it is valid and not aborted: with the next sequence number and the given id and target, pending, or rejected as unavailable when it cannot be sent |
| `WorkbenchGuests.ReadyOutcome` | electron/main/workbench-guests.ts:201-220 | in every run an admitted message sets readiness to what it says, and anything but ready rejects the pending request as unavailable |
| `WorkbenchGuests.ExpiryOutcome` | electron/main/workbench-guests.ts:129-144 | in every run a timeout or abort rejects its own unsettled request as such and nothing else, and withdraws readiness exactly when the guest cannot be told |
| `WorkbenchGuests.DepartureOutcome` | electron/main/workbench-guests.ts:70-95 | in every run a main-frame navigation or removal withdraws readiness and cancels the pending request, and any other navigation changes nothing |
| `WorkbenchGuests.ReplySettlesIff` | electron/main/workbench-guests.ts:222-245 | in every run a reply settles an unsettled request exactly when it is the pending one of the sender and the reply is malformed or repeats its id and sequence |
| `WorkbenchGuests.ReplyOutcome` | electron/main/workbench-guests.ts:225-244 | in every run a fitting reply settles the pending request of its sender as it says: resolved exactly for the requested target, rejected with the reason of a refusal, as unconfirmed for another selection, as invalid if malformed; nothing else changes |
| `WorkbenchGuests.OutsidersAreIgnored` | electron/main/workbench-guests.ts:189-199 | in every run only the registered guest object itself, in its main frame and at its origin, is listened to; any other message changes nothing |
| `WorkbenchGuests.LateReplySettlesIff` | electron/main/workbench-guests.ts:225-230 | an answer to an earlier request settles a later one exactly when its sender is the guest the later one waits for and the answer fails validation; across registrations this needs distinct random ids |
| `WorkbenchGuests.LateInvalidAnswerRejects` | electron/main/workbench-guests.ts:225-228 | every malformed reply rejects the request that its sender has pending |
| `WorkbenchGuests.StaleAnswerRejectsNext` | electron/main/workbench-guests.ts:222-228 | a run in which the answer to a request that timed out carries an unknown error code and rejects the next request |
| `WorkbenchGuests.LateTimerIsHarmless` | electron/main/workbench-guests.ts:137-144 | a timer or abort settles at most its own request, however late it fires |
| `WorkbenchGuests.NoSurvivor` | electron/main/workbench-guests.ts:70-95 | no unsettled request survives main-frame navigation, removal or disposal |
| `RuntimeFeed.LauncherRuntimeFeed.constructor` | electron/main/managed/launcher-runtime-feed.ts:73-75 | a new feed is at cursor zero, without timer, in generation zero |
| `RuntimeFeed.LauncherRuntimeFeed.StartPolling` | electron/main/managed/launcher-runtime-feed.ts:78-86 | a start without a timer moves the generation, resets the pace and arms one; with a timer it changes nothing; it delivers nothing |
| `RuntimeFeed.LauncherRuntimeFeed.StopPolling` | electron/main/managed/launcher-runtime-feed.ts:89-95 | a stop moves the generation, disarms the timer, keeps cursor and delay and delivers nothing |
| `RuntimeFeed.LauncherRuntimeFeed.ScheduleNext` | electron/main/managed/launcher-runtime-feed.ts:108-115 | a fresh timer is armed and becomes the feed's timer; nothing is delivered |
| `RuntimeFeed.LauncherRuntimeFeed.ConsoleArrives` | electron/main/managed/launcher-runtime-feed.ts:121-136 | a page of the current generation moves the cursor and forwards its records in order, a stale one does nothing; the pace stays the backoff formula |
| `RuntimeFeed.LauncherRuntimeFeed.StatusArrives` | electron/main/managed/launcher-runtime-feed.ts:137-144 | a stale view does nothing; a current one is delivered, and exactly a missing, stopped or failed launch stops the feed; cursor, delay and console are untouched |
| `RuntimeFeed.LauncherRuntimeFeed.DrainSettles` | electron/main/managed/launcher-runtime-feed.ts:110-113 | a timer is armed exactly when the feed has one, whichever start armed it; nothing is delivered |
| `RuntimeFeed.Narrow` | electron/main/managed/launcher-runtime-feed.ts:157-160 | the four known streams stay as they are, any other becomes stdout, and the text is untouched |
| `RuntimeFeed.StaleDrainIsInert` | electron/main/managed/launcher-runtime-feed.ts:118-149 | after any start or stop has moved the generation, an earlier drain changes neither cursor nor delay and delivers nothing, for the rest of every run |
| `RuntimeFeed.ForwardedExactlyOnce` | electron/main/managed/launcher-runtime-feed.ts:78-136 | in every run where no start takes effect while a drain is in flight, the forwarded records are the core's log up to the cursor, in order and once each, across restarts |
| `RuntimeFeed.RestartLeavesTwoChains` | electron/main/managed/launcher-runtime-feed.ts:108-115 | every start that finds a drain in flight and no timer can lead to two armed timers |
| `RuntimeFeed.TwoChainsForwardTwice` | electron/main/managed/launcher-runtime-feed.ts:118-136 | from there a record of the core can be forwarded twice, whatever was forwarded before |
| `RuntimeFeed.RestartDuringDrainDuplicates` | electron/main/managed/launcher-runtime-feed.ts:108-136 | so from every world with exact delivery so far such a start has a continuation that forwards a record twice |
| `RuntimeFeed.StartDeliversIff` | electron/main/managed/launcher-runtime-feed.ts:78-136 | in every world that an orderly run reaches, delivery stays exact in all orderly continuations of a start if and only if the start finds no drain in flight or a timer set |
| `RuntimeFeed.RestartIsReachable` | electron/main/managed/launcher-runtime-feed.ts:78-115 | such a world is reached in three steps: start, first drain, stop |
| `RuntimeFeed.DelayIsBackoff` | electron/main/managed/launcher-runtime-feed.ts:124-132 | in every run, once started with a fast delay of at most 2000, the delay is min(fast * 2^max(0, quiet - 4), 2000) |
| `RuntimeFeed.BackoffNeedsCap` | electron/main/managed/launcher-runtime-feed.ts:78-86 | right after a start that formula holds exactly for a fast delay of at most 2000 |
| `PluginSources.ManagedPluginSources.Materialize` | electron/main/managed/managed-plugin-sources.ts:80-121 | a completed source stands in a directory whose name was never used and that nothing records; an incomplete one is cleaned up or remains in part; keeps the store tidy |
| `PluginSources.ManagedPluginSources.Discard` | electron/main/managed/managed-plugin-sources.ts:124-127 | the given directory goes, or everything stays; keeps the store tidy |
| `PluginSources.ManagedPluginSources.Record` | electron/main/managed/managed-plugin-sources.ts:130-146 | a name is recorded once; a second record and a failing write change nothing; a new directory keeps the store tidy |
| `PluginSources.ManagedPluginSources.Update` | electron/main/managed/managed-plugin-sources.ts:164-200 | only a recorded git source whose fetch succeeds moves to a new revision; every record keeps its name, place and directory |
| `PluginSources.ManagedPluginSources.Remove` | electron/main/managed/managed-plugin-sources.ts:231-241 | the recorded directory of the name goes and then that record; a missing directory or a failing deletion or write is an error that keeps the record; keeps the store tidy |
| `PluginSources.LauncherPlugins.InstallPlugin` | electron/main/managed/launcher-harness-service.ts:419-456 | a whole installation with any answer at each await keeps the profile sound; it succeeds exactly when every await does, DSH binds a new name and that name has no record; what it leaves of profile, records and directories is exact in every case |
| `PluginSources.LauncherPlugins.AdoptPlugin` | electron/main/managed/launcher-harness-service.ts:522-571 | a whole adoption keeps the profile sound if the accepted add binds the adopted name or finds it recorded; it succeeds exactly for a profile entry without a record when every await does, and then binds the new directory and records it under the adopted name |
| `PluginSources.LauncherPlugins.UninstallPlugin` | electron/main/managed/launcher-harness-service.ts:472-493 | a whole removal keeps the profile sound; it succeeds exactly when the entry is there, the command is accepted and the recorded source, if any, is deleted and forgotten; then exactly that record and directory are gone |
| `PluginSources.LauncherPlugins.UpdatePlugin` | electron/main/managed/launcher-harness-service.ts:495-516 | an update keeps the profile, every directory and soundness; exactly a fetched git source takes the new revision |
| `PluginSources.RecordsStayDistinct` | electron/main/managed/launcher-harness-service.ts:419-456 | through every sequence of operations with a failure or crash at any await, recorded names and directories stay pairwise distinct |
| `PluginSources.ProfileStaysIntact` | electron/main/managed/launcher-harness-service.ts:419-571 | in the same runs every managed directory the profile refers to exists, if every adopting add binds the adopted name or finds it recorded |
| `PluginSources.AdoptStaysIntactIff` | electron/main/managed/launcher-harness-service.ts:543-561 | in every world such a run reaches with an adopting add under way, every referenced directory exists in all such continuations if and only if the add binds the adopted name or that name has a record already |
| `PluginSources.UnfaithfulAdoptBreaks` | electron/main/managed/launcher-harness-service.ts:472-493 | otherwise uninstalling the adopted name deletes a directory the profile still refers to |
| `PluginSources.UnfaithfulAdoptIsReachable` | electron/main/managed/launcher-harness-service.ts:522-571 | such a state is reached by adopting a plugin whose package calls itself something else |
| `PathText.RelativeIsExact` | electron/main/managed/validation.ts:302-309 | the relative-path test between directories is exactly: a strict descent whose first segment does not begin with two dots |
| `PathText.OverlapBySight` | electron/main/managed/validation.ts:294-309 | the string test on two canonical paths is exactly that reading of their segments and spelling |
| `PathText.OverlapTestIsExact` | electron/main/managed/validation.ts:294-309 | it agrees with nesting of the directories exactly when the pair is not one of the two hidden kinds, and never reports a false overlap |
| `PathText.SpellingIsHidden` | electron/main/managed/validation.ts:294-309 | `/a` and `/a/` are taken for separate |
| `PathText.DottedChildIsHidden` | electron/main/managed/validation.ts:302-309 | `/a` and `/a/..b` are taken for separate |
| `PathText.NamespaceTestIsExact` | electron/main/managed/validation.ts:315-317 | the namespace prefix test is exactly nesting of segment lists |
| `PathText.NamespaceIsPortable` | electron/main/managed/validation.ts:30-51 | a valid namespace has at most 512 units and holds no backslash, control or reserved character |
| `PathText.ResolveView` | electron/main/managed/validation.ts:266-268 | the resolved path of a valid namespace is canonical and names its segments below the root, however the root is spelled |
| `PathText.ResolveSpelling` | electron/main/managed/validation.ts:268 | as text it is the root, one separator and the namespace |
| `PathText.ResolveTestIsExact` | electron/main/managed/validation.ts:261-276 | resolution gives that path exactly for a valid namespace whose first segment does not begin with two dots, whatever the root |
| `PathText.ReadingIsFaithful` | electron/main/managed/validation.ts:294-317 | comparing what is read from two persisted paths or namespaces gives the answer of the string tests on their text |
| `OwnershipTopology.CheckEach` | electron/main/managed/validation.ts:119-137 | the pass over the roots accepts exactly valid roots with pairwise different kinds and ids |
| `OwnershipTopology.AllApart` | electron/main/managed/validation.ts:139-148 | the double loop accepts exactly roots whose paths are pairwise apart |
| `OwnershipTopology.AssertManagedRootLayout` | electron/main/managed/validation.ts:110-149 | the layout check accepts exactly four valid, different, pairwise apart roots |
| `OwnershipTopology.AssertBindings` | electron/main/managed/validation.ts:174-182 | the binding check accepts exactly one valid binding for each root |
| `OwnershipTopology.AssertWorkspaceBinding` | electron/main/managed/validation.ts:152-183 | a workspace is accepted exactly when its ids, title, directory and bindings are valid and its directory is outside every root |
| `OwnershipTopology.FileBinding` | electron/main/managed/validation.ts:198-214 | one binding is accepted exactly when it overlaps no earlier one of its root, and is then filed under that root |
| `OwnershipTopology.AssertNamespacesDoNotOverlap` | electron/main/managed/validation.ts:186-216 | accepted exactly when workspace ids differ and no two bindings of one root overlap, in whatever workspaces |
| `OwnershipTopology.AssertDirectoriesDoNotOverlap` | electron/main/managed/validation.ts:219-245 | accepted exactly when folded titles differ and working directories are pairwise apart |
| `OwnershipTopology.ValidateManagedRootRegistry` | electron/main/managed/registry.ts:145-156 | the registry is accepted exactly when all four checks hold |
| `OwnershipTopology.AcceptedRoots` | electron/main/managed/validation.ts:110-149 | an accepted registry has one root of each kind, with different ids, apart from each other and from the DSH home and outside every `.dsh` directory |
| `OwnershipTopology.AcceptedWorkspace` | electron/main/managed/validation.ts:152-183 | an accepted working directory is apart from every root and from the DSH home and outside every `.dsh` directory |
| `OwnershipTopology.EveryRootIsBound` | electron/main/managed/validation.ts:174-182 | every accepted workspace binds every root exactly once |
| `OwnershipTopology.AcceptedWorkspaces` | electron/main/managed/validation.ts:186-245 | two accepted workspaces have different ids and folded titles and working directories apart |
| `OwnershipTopology.RootPairIff` | electron/main/managed/validation.ts:261-317 | below two roots the test keeps apart, resolved directories are nested exactly when one root is spelled twice and the namespaces overlap |
| `OwnershipTopology.OutsiderIff` | electron/main/managed/validation.ts:164-173 | a resolved directory and a place outside its root are nested exactly when that place lies hidden above the root |
| `OwnershipTopology.OwnershipIsDisjointIff` | electron/main/managed/validation.ts:110-216 | in every accepted registry whose namespaces resolve, all owned directories are pairwise disjoint, and disjoint from every working directory and the DSH home, exactly when no root is spelled twice over overlapping namespaces and no outsider lies above a bound root |
| `OwnershipTopology.PlainRegistryIsDisjoint` | electron/main/managed/validation.ts:110-216 | without trailing separators and segments beginning with two dots, every accepted registry whose namespaces resolve is disjoint |
| `RegistryText.ValidateText` | electron/main/managed/registry.ts:145-156 | the check on the persisted text accepts exactly a canonical home and roots and workspaces whose reading passes |
| `RegistryText.ResolvedPathsAreApartIff` | electron/main/managed/validation.ts:110-276 | in every accepted registry whose namespaces resolve, the resolved path strings name directories apart from each other, from every working directory and from the DSH home exactly when nothing is hidden from the overlap test |
| `RegistryText.PlainPathsAreApart` | electron/main/managed/validation.ts:110-276 | with plainly spelled paths they always are |
| `RegistryText.TwinRootsShareDirectory` | electron/main/managed/validation.ts:139-148 | roots `/a` and `/a/`, for any names: an accepted registry that gives one directory twice |
| `RegistryText.DottedRootLiesInHome` | electron/main/managed/validation.ts:95-107 | a root `/h/..a` next to the home `/h`, for any names: an accepted registry whose directory lies in the DSH home |
| `WorkspaceDirectories.Disk.CreateDirect` | electron/main/managed/workspace-directories.ts:101-125 | a directory passes exactly when no call fails and it is missing below a directory, or is a directory that is not the target; it is then there, and noted if it was created |
| `WorkspaceDirectories.Disk.CreateNamespace` | electron/main/managed/workspace-directories.ts:78-99 | succeeds exactly when no call fails and the root is a directory, nothing but directories is on the way and the target is missing; then all of them are there |
| `WorkspaceDirectories.Disk.CreatePlan` | electron/main/managed/workspace-directories.ts:55-66 | the same for one root, whose binding must be there and resolve |
| `WorkspaceDirectories.Disk.ResolveDirectories` | electron/main/managed/workspace-directories.ts:47-76 | succeeds exactly when no call fails and every plan finds its way free when its turn comes; all targets are created and the answer maps each kind to its target, or the created list says exactly what to undo |
| `WorkspaceDirectories.Disk.RemoveCreated` | electron/main/managed/workspace-directories.ts:144-156 | removal in reverse order restores the disk exactly when none of its own calls fails, and never meets a directory with entries |
| `WorkspaceDirectories.Disk.CreateManagedWorkspaceDirectories` | electron/main/managed/workspace-directories.ts:12-25 | for every set of roots, every namespace and every point of failure: exactly when all targets are freshly created; otherwise the disk is as before if and only if no call of the rollback itself fails, and faults of creating calls alone leave nothing behind |
| `WorkspaceDirectories.NewestIsEmpty` | electron/main/managed/workspace-directories.ts:144-156 | the newest created directory is empty, and removing it gives back the disk before it |
| `WorkspaceDirectories.ReadyMeansFresh` | electron/main/managed/workspace-directories.ts:12-25 | every created directory is new, and nothing that was there before is gone or changed |
| `VersionOrder.CompareVersions` | electron/main/managed/profile-compatibility.ts:220-239 | the index loop computes the comparison of the two parses |
| `VersionOrder.CompareIsPrecedence` | electron/main/managed/profile-compatibility.ts:220-239 | its sign is precedence as section 11 of Semantic Versioning 2.0.0 words it; it is zero only for equal parses, and antisymmetric |
| `VersionOrder.CompareTransitive` | electron/main/managed/profile-compatibility.ts:220-239 | it is transitive over prerelease lists of any length |
| `VersionOrder.ComparatorMeans` | electron/main/managed/profile-compatibility.ts:174-202 | each operator admits exactly the versions it names in the order of precedence |
| `VersionOrder.RangeAccepts` | electron/main/managed/profile-compatibility.ts:162-172 | a range accepts exactly what some alternative accepts after all earlier ones refused |
| `VersionOrder.AlternativeConvex` | electron/main/managed/profile-compatibility.ts:162-202 | every alternative accepts an interval |
| `VersionOrder.ComparatorShrinks` | electron/main/managed/profile-compatibility.ts:168-171 | a further comparator, wherever it stands, accepts exactly what was accepted and satisfies it |
| `VersionOrder.AlternativeMeans` | electron/main/managed/profile-compatibility.ts:167-190 | an alternative accepts exactly what meets all its comparators, and raises an error exactly when every comparator before an unsupported one is met |
| `VersionOrder.AlternativeWidens` | electron/main/managed/profile-compatibility.ts:162-172 | a further alternative keeps an accepted version accepted exactly when the version meets all comparators of an earlier alternative, or does not meet every comparator up to an unsupported one of the new alternative |
| `VersionOrder.SupportedWidens` | electron/main/managed/profile-compatibility.ts:162-172 | an alternative of supported comparators, wherever it stands, only widens |
| `VersionOrder.UnsupportedHides` | electron/main/managed/profile-compatibility.ts:174-202 | an unsupported alternative in front of an accepting one raises an error |
| `WindowPlacement.RoundHalf` | electron/main/window-placement.ts:99-100 | halves round up, also below zero |
| `WindowPlacement.OverlapIsShared` | electron/main/window-placement.ts:32-36 | the overlap is exactly the columns and rows that both rectangles hold |
| `WindowPlacement.BestHost` | electron/main/window-placement.ts:59-71 | the chosen display is the first of those with the largest overlap area |
| `WindowPlacement.PlaceInLayout` | electron/main/window-placement.ts:87-105 | a reachable window, or one without displays, is unchanged; any other is fitted onto its best host |
| `WindowPlacement.PlacementIsUnique` | electron/main/window-placement.ts:59-105 | there is one such placement |
| `WindowPlacement.PlacementIsIdempotent` | electron/main/window-placement.ts:87-105 | placing twice is placing once, also below the reachability threshold and with overlapping areas |
| `WindowPlacement.PlacedIsReachable` | electron/main/window-placement.ts:44-105 | a moved window is reachable exactly when what fits of it on its host is large enough |
| `WindowPlacement.FitIsInside` | electron/main/window-placement.ts:91-104 | a moved window lies wholly inside its host and is never larger than it was |
| `WindowPlacement.ClampIsNearest` | electron/main/window-placement.ts:93-95 | no position inside the host is nearer to where a fitting window was |
| `WindowPlacement.ShrinkCentres` | electron/main/window-placement.ts:96-103 | a shrunken window is centred up to one pixel |

## Left out

- Numbers are exact: rounding of doubles, infinite JSON literals and sums beyond 2^53 are not modelled.
- JSON parsing, the local calendar day, the display excerpt of a prompt, the zstd decoder and the folding of display names are parameters; the theorems hold for all of them.
- The text `date\0model` that keys the daily map is a pair here; a date holds no NUL, so the two are the same key.
- UsageFold.ListRows: the order of the rows is left open, because restoring does not depend on it.
- UsageReport.Summarize: the calendar is a map here; the order in which its rows are shown is not modelled.
- SessionEvents.EventRoundTrip: speaks of the shapes that `Render` writes; the writer of these logs belongs to DSH and is not part of this repository.
- Discovering session files, admitting a cache document and rewritten logs of a larger size.
- What readiness and profile compatibility read from disk: each is a verdict on a directory. Which half-deleted worktrees git can recover is not claimed.
- Exclusion between starting DSH and version operations, which the launcher does not promise.
- Parsing of versions, ranges, release records and URLs; their parses are the inputs. The tag and file name of an installer address stand for the address.
- WorkbenchGuests.Workbench.AskGuest: the kind of operation and the text of cancel messages to the guest are not modelled.
- The revision recorded at installation, branches, archive extraction and update availability of plugin sources.
- Removing the directories of a workspace later, and reading existing ones.
- Windows path style: namespaces compare case-sensitively there while paths do not.
- The canonical-target checks after creation (workspace-directories.ts lines 67 and 93), which cannot fail for paths made of segments.
- IPC, preload bridges, tray, dialogs, protocol handlers, core RPC clients, process spawning, git and pnpm themselves, zoom steps and error-code tables: plumbing or single-branch facts.
