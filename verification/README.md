# Verified model of the kirara-agent core

This project models the parts of the repository whose correctness is hardest to
see from the code, and proves what they promise. Every module stands for one
component:

| module | component |
|---|---|
| `TextUnits`, `TextSplit`, `FenceRules`, `PagePacking`, `StructuredBody`, `Pagination` | splitting IM replies into pages: plain text, code blocks, box tables, the packer, page labels, truncation |
| `CodeFencing`, `CodeRuns` | putting bare code into fenced blocks (CommonMark 0.30, section 4.5) |
| `ReleaseVersions`, `VersionSync` | choosing the next release (PEP 440, "Summary of permitted suffixes and relative ordering"), and the crash-safe rewrite of all version carriers |
| `StreamFailover` | one streamed model request over a queue of providers |
| `PriceCatalogs`, `BackupRestore` | optimistic concurrency on the price file with rotating backups; all-or-nothing restore |
| `QrLogin`, `InboundReceipts` | folding a login log into a snapshot; dedup of inbound events |
| `AgentIdentity`, `AgentDefinitions`, `AgentRegistry`, `AgentRouting` | identifiers and session keys, normalised definitions, the registry with its saved form, and which Agent answers a conversation |
| `AgentMessages`, `ContextCompaction`, `AgentLoop`, `AgentSessions` | tool pairing, compaction, the bounded tool loop with confirmation and delegation, and whole sessions of it |

How it is written:

- Code that changes state step by step is a class or a method with a loop, and
  its contract ties the new state to a function of the old one. The properties
  are lemmas about those functions, mostly over all runs.
- What comes from outside is arbitrary: a parameter (`World`, `Surroundings`,
  `Fate`, `fails`, the clock `now`) or a given function (`Inline`, `Detector`,
  `Size`, `TokenPattern`).
- Python exceptions are `Result` or `Option` values. Text sizes are UTF-8
  lengths (RFC 3629, section 3) or character counts.
- A branch the source can never take is kept and closed with `assert false`:
  the cut at 0 (`kirara_ai/im/text_render.py:1543-1544`), the repair block behind
  the labels (`kirara_ai/im/text_render.py:1890-1903`), the missing highest
  version and the "does not advance" error (`scripts/version.py:416-430`), the
  dangling-reference check of a registry commit
  (`kirara_ai/agent_runtime/core.py:1065-1066`) and the error behind the tool loop
  (`kirara_ai/agent_runtime/executor.py:1369-1378`).

## Where the code does less than it says

Each of these is a proved statement with the exact condition.

- A page cut is to leave every inline span that fits on a page whole. It breaks
  one exactly when the first such span around the hard cut begins inside another
  (`TextSplit.CutBreaksSpanIff`, `TextSplit.MovedCutCanBreakAnotherSpan`).
- The header of a box table is sent exactly when some row fits behind it, or
  there is no row: a table whose rows are all folded arrives without header and
  footer (`StructuredBody.HeaderIsShownIff`, `StructuredBody.HeaderCanBeLost`).
- The truncation fallback promises both limits. It exceeds the byte budget
  exactly when it truncates and the notice, cut to a page, is larger than the
  budget (`Pagination.PaginateWithTruncationNotice`,
  `Pagination.BareNoticeBreaksTheBudget`).
- `minor` and `major` pass over the release of the line whose prerelease is the
  highest version, exactly then (`ReleaseVersions.NextIsLeastIff`).
- A catalog loaded from a file without a digest takes no part in the lost-update
  check; it loses nothing exactly when it still holds the file's prices
  (`PriceCatalogs.UnguardedIsSerialIff`, `PriceCatalogs.UnguardedUpdateIsLost`).
- `set_enabled` refuses to disable the default Agent, but `update`, and
  `register` of a disabled Agent named "default", leave a disabled default
  (`AgentRegistry.DefaultStaysEnabledIff`).
- An Agent whose models are all blank is accepted and saved, and then keeps the
  registry from loading (`AgentRegistry.SavedStateComesBack`,
  `AgentRegistry.BlankModelsBlockTheRestart`).
- The default compaction meets the check on custom compactors exactly when there
  is a user message, or no system message out of first place
  (`ContextCompaction.DefaultIsAcceptedIff`, `ContextCompaction.DefaultCanBeRefused`).
- Context a hook adds in the middle of a run is announced to stay. After a
  compaction step it is still there exactly below the threshold, or when an
  accepted custom compactor kept it (`ContextCompaction.HookContextSurvivesIff`,
  `ContextCompaction.HookContextIsLost`).
- Unbinding a conversation also drops its legacy key, and with it the Agent of
  another conversation that is bound under that key alone
  (`AgentRouting.UnbindingReleases`, `AgentRouting.UnbindingCanReleaseAnother`).
- Delegation depth bounds one call: `confirm` gives a delegated run the full depth
  again (`kirara_ai/agent_runtime/executor.py:913` and `:938`). Counted from the
  first message, the delegations a request stands below and those it has left add
  up to more than the default depth exactly when a run begun by a delegation was
  taken up again (`AgentSessions.AncestryIsBoundedIff`). Where such runs delegate
  on, they nest to any depth (`AgentSessions.NestWithoutBound`).

## Model

| member | source | states |
|---|---|---|
| `TextUnits.MeasureCounts` | kirara_ai/im/text_render.py:1441-1442 | the size of a text is the number of bytes of its UTF-8 form, or of its characters |
| `TextSplit.HardCutIsLargest` | kirara_ai/im/text_render.py:1509-1517 | the hard cut is the longest prefix that fits: it fits, and every longer one does not |
| `TextSplit.FindHardCut` | kirara_ai/im/text_render.py:1509-1515 | the counting loop finds that prefix |
| `TextSplit.HardCutOnlyMovesBack` | kirara_ai/im/text_render.py:1473-1486 | at the hard cut, leaving a span never moves the cut forward and never to 0 |
| `TextSplit.FindCut` | kirara_ai/im/text_render.py:1519-1544 | moved cut, else last structural line start, else last marker, else hard cut; the guard against a cut at 0 is dead |
| `TextSplit.CutInRange` | kirara_ai/im/text_render.py:1519-1546 | every cut is above 0 and at most the hard cut, so each chunk fits and the loop ends |
| `TextSplit.CutIsPreferred` | kirara_ai/im/text_render.py:1519-1544 | the cut leaves a span that fits; else it is the last structural line start outside of every span; else the last place behind the last occurrence of a marker; else the hard cut |
| `TextSplit.SplitTextPreserving` | kirara_ai/im/text_render.py:1497-1546 | the loop computes `Split`, of which the next row holds |
| `TextSplit.SplitIsLosslessAndBounded` | kirara_ai/im/text_render.py:1497-1546 | chunks concatenate to the text, none is empty or too large, and splitting fails exactly when one single character does not fit |
| `TextSplit.CutBreaksSpanIff` | kirara_ai/im/text_render.py:1454-1486 | a chosen cut breaks a span that fits on a page exactly when the first such span around the hard cut begins inside another one |
| `TextSplit.MovedCutCanBreakAnotherSpan` | kirara_ai/im/text_render.py:1481-1486 | bold text from 1 to 9 and code from 5 to 12: leaving the code breaks the bold text |
| `FenceRules.FenceMarker` | kirara_ai/im/text_render.py:117-120 | a fence is at least three characters, all equal, and backticks or tildes |
| `FenceRules.FenceMarkerIff` | kirara_ai/im/text_render.py:117-123 | a line has a fence exactly when it is an indentation, a run of at least three equal fence characters, an info string without backticks and perhaps a newline |
| `StructuredBody.NestedFencesStayInside` | kirara_ai/im/text_render.py:131-150 | whole fenced blocks with shorter fences, or of the other character, are content: the outer block is one block that ends at its own closer |
| `PagePacking.BackfillChunks` | kirara_ai/im/text_render.py:1646-1674 | the loop computes the greedy packing, chunks in order, groups joined by a blank line |
| `PagePacking.GreedyPacks` | kirara_ai/im/text_render.py:1646-1674 | the pages hold all chunks, in order, and all fit |
| `PagePacking.GreedyIsOptimal` | kirara_ai/im/text_render.py:1646-1674 | no way to group the chunks in order into fitting pages uses fewer pages |
| `PagePacking.NeighboursDoNotFit` | kirara_ai/im/text_render.py:1646-1674 | no two neighbouring pages could be joined |
| `StructuredBody.SplitCodeBlock` | kirara_ai/im/text_render.py:1586-1610 | the splitter of code blocks computes `SplitCode` |
| `StructuredBody.CodePagesKeepTheCode` | kirara_ai/im/text_render.py:1586-1610 | every page of a closed block is the original opener, a body and the original closer, and fits; the bodies joined are the code |
| `StructuredBody.SplitBoxTable` | kirara_ai/im/text_render.py:1613-1643 | the row loop produces the pages of the greedy layout `Segments` |
| `StructuredBody.LayoutKeepsRows` | kirara_ai/im/text_render.py:1625-1643 | every row is in the layout once and in order, and every table page of it fits |
| `StructuredBody.FoldedIff` | kirara_ai/im/text_render.py:1625-1643 | the folded rows are exactly those that no table page can hold |
| `StructuredBody.HeaderIsShownIff` | kirara_ai/im/text_render.py:1613-1643 | some page sent starts with the header exactly when some row fits on a table page, or there are no rows |
| `StructuredBody.HeaderCanBeLost` | kirara_ai/im/text_render.py:1632-1643 | a regular table of five lines with four characters each, under a limit of 20: its one row arrives folded and alone |
| `StructuredBody.TablePagesKeepTheRows` | kirara_ai/im/text_render.py:1613-1643 | all pages fit and show the rows once and in order, between header and footer or folded; splitting fails exactly when the frame alone does not fit, or a folded row holds a character too large, each with its own error |
| `StructuredBody.FindCodeEnd` | kirara_ai/im/text_render.py:1700-1713 | a code block runs to its first closing line or the end |
| `StructuredBody.FindTableEnd` | kirara_ai/im/text_render.py:1716-1725 | a table runs to its first bottom border or the end |
| `StructuredBody.SplitStructuredBody` | kirara_ai/im/text_render.py:1677-1734 | the line loop sends every block to its splitter and packs the chunks |
| `StructuredBody.BlocksCoverLines` | kirara_ai/im/text_render.py:1677-1734 | the blocks carry all lines once and in order; only the last block may be unterminated, and plain runs hold no opening line |
| `StructuredBody.BodyPagesFitAndPack` | kirara_ai/im/text_render.py:1677-1734 | the pages of a body all fit and are as few as any packing of the block pages allows |
| `StructuredBody.BodyKeepsEverything` | kirara_ai/im/text_render.py:1677-1734 | the pages, unpacked, give back every line in order: plain runs and open fences by joining, closed fences by joining the bodies, tables row by row; splitting fails exactly when some block does not fit |
| `Pagination.FindLabelRoom` | kirara_ai/im/text_render.py:1869-1871 | the largest label of n pages |
| `Pagination.SettledCount` | kirara_ai/im/text_render.py:1866-1885 | when the count settles, the labels were sized for exactly the pages delivered |
| `Pagination.LabelledPagesFit` | kirara_ai/im/text_render.py:1885-1890 | so no labelled page outgrows the limit |
| `Pagination.SplitStructuredText` | kirara_ai/im/text_render.py:1835-1910 | the loop computes `Paginate`, with the errors in the source's order; the repair block is never entered |
| `Pagination.PaginateIsSound` | kirara_ai/im/text_render.py:1835-1910 | one page that is the text, or labels 1..n of n around the body's pages; n at most `max_pages`, every page fits, the total stays in the budget |
| `Pagination.PaginateWithTruncationNotice` | kirara_ai/im/text_render.py:1774-1832 | raises exactly the configuration errors; truncates exactly when pagination fails, to a prefix that cannot be one character longer, or to the bare notice; keeps page limit and page count always, and breaks the byte budget exactly when it truncates and the cut notice is larger than the budget |
| `Pagination.WhatTruncates` | kirara_ai/im/text_render.py:1801-1805 | the errors that truncate are exactly those whose text speaks of a limit that is neither too small nor ill-formed |
| `Pagination.DeliveredPagesAreBounded` | kirara_ai/im/text_render.py:1774-1832 | every truncation keeps page limit and page count, and the byte budget unless the cut notice exceeds it, in which case only that notice is sent |
| `Pagination.CutIsLongest` | kirara_ai/im/text_render.py:1808-1823 | where growing a prefix that does not fit never makes it fit, the search finds the longest that fits |
| `Pagination.BareNoticeIgnoresBudget` | kirara_ai/im/text_render.py:1805-1832 | under a budget smaller than the notice no prefix can be paginated, so the bare notice is all that is left |
| `Pagination.BareNoticeBreaksTheBudget` | kirara_ai/im/text_render.py:1828-1832 | eleven characters under a budget of ten bytes: the call truncates, and the notice exceeds the budget |
| `CodeFencing.FencedLineIndices` | kirara_ai/im/text_render.py:706-728 | the lines the loop marks are those in a fence or opening or closing one |
| `CodeFencing.ScanRun` | kirara_ai/im/text_render.py:758-785 | the inner loop counts the run of code-like lines up to prose or too many blanks |
| `CodeFencing.DetectCodeSpans` | kirara_ai/im/text_render.py:731-794 | the outer loop finds the accepted runs, each from its first line |
| `CodeFencing.AcceptedRunsHaveTwoLines` | kirara_ai/im/text_render.py:785-792 | the check that the run reaches a later line follows from the counts |
| `CodeRuns.LinkedCodeIsFenced` | kirara_ai/im/text_render.py:731-794 | two code lines with no prose and no long gap between them always end up in one span |
| `CodeRuns.SpansHaveEvidence` | kirara_ai/im/text_render.py:731-794 | every span starts with a code line, holds no prose, ends in a line with text, and holds two code lines, or a definition and an indented line |
| `CodeFencing.FenceUnfencedCode` | kirara_ai/im/text_render.py:797-838 | the output loop computes `FenceText` |
| `CodeFencing.FencingLosesNothing` | kirara_ai/im/text_render.py:797-838 | deleting the inserted lines gives the original lines |
| `CodeFencing.RejectedRunsStay` | kirara_ai/im/text_render.py:754-793 | a run that was not accepted is not accepted in the fenced text either |
| `CodeFencing.FencedTextHasNoSpan` | kirara_ai/im/text_render.py:706-838 | after one pass no line starts a code span |
| `CodeRuns.NoLinkedCodeIsLeft` | kirara_ai/im/text_render.py:797-845 | in the result no two code lines that belong together are left outside of fences |
| `CodeFencing.FencingIsIdempotent` | kirara_ai/im/text_render.py:797-838 | fencing a fenced text changes nothing |
| `ReleaseVersions.LessIsTotalOrder` | scripts/version.py:246-260 | the sort key is a strict total order on versions |
| `ReleaseVersions.ParseFormat` | scripts/version.py:233-265 | parsing a formatted version gives it back |
| `ReleaseVersions.ParseVersionIff` | scripts/version.py:233-243 | a text is read as a version exactly when it spells that version: three numerals with dots, and perhaps a stage with its number |
| `ReleaseVersions.FindHighest` | scripts/version.py:411-415 | the highest occupied version, which none exceeds |
| `ReleaseVersions.OneMoveClears` | scripts/version.py:282-431 | for every kind one move behind the highest version is above it and above the current one |
| `ReleaseVersions.NextIsLeastIff` | scripts/version.py:282-431 | the answer is the least version of its channel above the current and every occupied one, exactly unless `minor` or `major` skip their own line |
| `ReleaseVersions.MinorPassesOverItsOwnPrerelease` | scripts/version.py:326-376 | an occupied 3.5.0b1 sends `minor` to 3.6.0 although 3.5.0 is free |
| `ReleaseVersions.NextVersion` | scripts/version.py:379-431 | the search returns the policy's answer for the highest version that any published text names; no published text names the answer, and it is above every version named; the loop body runs at most once and both guards behind it are dead |
| `ReleaseVersions.AnswerIsLeastFree` | scripts/version.py:379-431 | the answer parses back, and is the least of its channel above the current version and every version that a published text names |
| `VersionSync.Workspace.Recover` | scripts/version.py:1010-1088 | it returns exactly when every step works and any journal is readable; then all targets are old or all are new, and with a journal present all are old; other files keep their contents; a damaged journal is refused without touching a file |
| `VersionSync.Workspace.RestoreWorkspace` | scripts/version.py:916-943 | every target gets its content from before, absent files are absent again, other files keep theirs; safe after every step |
| `VersionSync.Workspace.RemoveJournal` | scripts/version.py:961-966 | entries go in any order, and every state in between is safe |
| `VersionSync.Workspace.Persist` | scripts/version.py:969-1007 | the journal appears whole, by one rename, or not at all; the flush behind the rename may fail with the journal in place |
| `VersionSync.Workspace.SetVersion` | scripts/version.py:1186-1230 | it starts from the contents it found, or the ones its recovery restored; it succeeds exactly when every step works, any journal is readable, the project file exists and nothing is rejected, and then every target is new; when all that fails is the check of what it wrote, every target is old again and no journal is left; so it is behind one failing step, unless that step was giving the journal up, when all targets are new and recovery refuses the rest |
| `VersionSync.Workspace.Rewrite` | scripts/version.py:1205-1230 | whatever first goes wrong behind the published journal, an undo that meets no failing step ends in the old contents without a journal; the only exception is a failure while the journal is given up |
| `VersionSync.Workspace.UndoUnlessCrashed` | scripts/version.py:1222-1230 | the old contents are back and no journal is left exactly when the cause was an exception, the journal can be read and no step of the undo fails |
| `VersionSync.DeletionMakesUnreadable` | scripts/version.py:961-966 | a journal with anything deleted from it is refused, so it cannot be half applied |
| `VersionSync.PersistedJournalSaves` | scripts/version.py:883-913 | the snapshot and the list of missing files undo to the content before |
| `VersionSync.RemovedStaysSafe` | scripts/version.py:961-966 | deleting one entry of a settled journal keeps the state safe |
| `VersionSync.History` | scripts/version.py:969-1230 | along any events with a crash after any step: at any moment without a journal the targets of the last sync begun all have the contents it started from, or all the new ones; a sync or a recovery returns exactly when no step fails, nothing stands in its way and nothing is rejected; a rejected sync whose steps all work, and one with a single failing step, has put everything back; each event changes only the files its sync owns |
| `VersionSync.SyncAndRecover` | scripts/version.py:969-1230 | one sync and any number of recoveries, crashed anywhere: no other file ever changes; whenever no journal is left, all tracked files are as they were or all as written; when nothing fails they are as written, and when only the check fails they are as they were |
| `StreamFailover.LogIsNumbered` | kirara_ai/llm/llm_manager.py:902-1107 | attempts are numbered 1..n, providers in candidate order |
| `StreamFailover.OnlyLastDelivers` | kirara_ai/llm/llm_manager.py:902-1107 | only the last attempt can have succeeded or delivered anything |
| `StreamFailover.LogIsBounded` | kirara_ai/llm/llm_manager.py:902-1107 | no more attempts than retries plus one, summed over the candidates |
| `StreamFailover.StreamsAreNotJoined` | kirara_ai/llm/llm_manager.py:902-1107 | what all attempts delivered together is what the last one delivered |
| `StreamFailover.TryOnce` | kirara_ai/llm/llm_manager.py:991-1080 | one upstream call, its log entry, and what the entry says about another try |
| `StreamFailover.StreamProvider` | kirara_ai/llm/llm_manager.py:938-1090 | one provider's retries, each entry an answer of the upstream of its own: it moves on only when nothing was yielded and the last error may be replayed, and stops only for the deadline, a cancellation or a fatal error; each call follows a wait that neither the deadline nor the caller ended |
| `StreamFailover.ExecuteStream` | kirara_ai/llm/llm_manager.py:902-1107 | everything yielded is a prefix of one single upstream call, its complete output exactly on success; exhausted only when every candidate was used up, the error forbids a replay, or the deadline was seen to have passed; cancelled only by the caller, or by the last call; a handful of questions for each attempt; right before the first call of a provider the caller had not cancelled and the circuit let it through, an entry without a call stands exactly where the circuit refused, and no call follows a cancellation or a deadline that was seen |
| `PriceCatalogs.PerformKeepsValid` | kirara_ai/llm/pricing.py:328-428 | digests stay right, ids and slots unique, revisions rise, backups follow the history, whatever any catalog does |
| `PriceCatalogs.CommitIsLetThroughIff` | kirara_ai/llm/pricing.py:465-487 | the guard passes exactly when the expected revision is right and the memory is the file, or has no digest |
| `PriceCatalogs.NoLostUpdate` | kirara_ai/llm/pricing.py:300-428 | any interleaving leaves the file as if the successful commits ran one after another |
| `PriceCatalogs.FreshRunsAreCovered` | kirara_ai/llm/pricing.py:140-165 | the same for every run from a newly created file |
| `PriceCatalogs.FailedCallsChangeNothing` | kirara_ai/llm/pricing.py:400-428 | a call that raises changes neither file nor memory; a commit adds one revision; other catalogs never change |
| `PriceCatalogs.BackupsAreHistory` | kirara_ai/llm/pricing.py:602-625 | generation g holds the document from g commits earlier |
| `PriceCatalogs.EditsArePointwise` | kirara_ai/llm/pricing.py:168-209 | price by price: what an edit adds, replaces or removes is found, or not, under its id, and every other price stays |
| `PriceCatalogs.RestoreGoesBack` | kirara_ai/llm/pricing.py:362-398 | restoring generation g publishes the prices from g commits earlier as the next revision, exactly when there is such a document and the guard lets it through |
| `PriceCatalogs.UnguardedUpdateIsLost` | kirara_ai/llm/pricing.py:465-487 | two catalogs without a digest: the first price is gone after the second commit |
| `PriceCatalogs.UnguardedIsSerialIff` | kirara_ai/llm/pricing.py:465-487 | a catalog without a digest passes the guard always, and edits the current prices exactly when it holds them |
| `PriceCatalogs.Resolve` | kirara_ai/llm/pricing.py:211-223 | the matching price that took effect last, or none exactly when none matches |
| `PriceCatalogs.LatestPriceIsUnique` | kirara_ai/llm/pricing.py:211-223 | that price is unique, whatever the order of the list |
| `PriceCatalogs.PriceCatalog.CommitVersions` | kirara_ai/llm/pricing.py:400-428 | publishes under the lock or raises and changes nothing |
| `PriceCatalogs.PriceCatalog.AddVersion` | kirara_ai/llm/pricing.py:168-177 | the step of the model for `add` |
| `PriceCatalogs.PriceCatalog.UpdateVersion` | kirara_ai/llm/pricing.py:179-193 | the step for `update` |
| `PriceCatalogs.PriceCatalog.RemoveVersion` | kirara_ai/llm/pricing.py:195-209 | the step for `remove` |
| `PriceCatalogs.PriceCatalog.ImportDocument` | kirara_ai/llm/pricing.py:300-314 | the step for `import_document`: all prices or none |
| `PriceCatalogs.PriceCatalog.RefreshCatalog` | kirara_ai/llm/pricing.py:328-360 | memory becomes the file, the file stays |
| `PriceCatalogs.PriceCatalog.RestoreBackup` | kirara_ai/llm/pricing.py:362-398 | a backup generation becomes a new revision |
| `BackupRestore.RestoredIsUnique` | kirara_ai/backup/service.py:145-170 | the postcondition of a restore leaves only one possible data directory |
| `BackupRestore.DataDirectory.ReplaceComponent` | kirara_ai/backup/service.py:355-366 | it works exactly when the component was staged and no step raises; otherwise the component is where it was, unless the undo raised too |
| `BackupRestore.DataDirectory.RestorePreviousComponents` | kirara_ai/backup/service.py:368-374 | the undo loop gives every restored component its previous content, or removes it when there was none, exactly when none of its steps raises |
| `BackupRestore.DataDirectory.RestoreBackup` | kirara_ai/backup/service.py:145-170 | works exactly when everything was staged and no step raises, and then exactly the manifest's components are replaced; otherwise all data is as before, unless a second step raises behind the first failure |
| `BackupRestore.UndoneIsBefore` | kirara_ai/backup/service.py:368-374 | undoing what was restored gives the data before |
| `QrLogin.Accumulator.Apply` | kirara_ai/im/qr_login.py:367-447 | a hot-update line changes no scan field and the other way round |
| `QrLogin.Accumulator.ApplyHotUpdate` | kirara_ai/im/qr_login.py:303-364 | the whole new hot-update state |
| `QrLogin.ParseQrLoginLog` | kirara_ai/im/qr_login.py:476-558 | the snapshot is the view of the two folds |
| `QrLogin.StateIsOfTheLog` | kirara_ai/im/qr_login.py:367-447 | the state is the last decision in the log; without one, the first saved code or quick login; else the last hint; else unknown |
| `QrLogin.DecisionsAreShown` | kirara_ai/im/qr_login.py:367-558 | a success, a scan or a failure is shown exactly when it is the last decision in the log |
| `QrLogin.PicturesAreCounted` | kirara_ai/im/qr_login.py:367-447 | every picture is counted once, and the last one gives the validity |
| `QrLogin.RefreshesAreLaterPictures` | kirara_ai/im/qr_login.py:476-558 | every picture but the first is a refresh |
| `QrLogin.WaitingIsJudged` | kirara_ai/im/qr_login.py:500-558 | a code that waits is shown as expired exactly when its logged generation time and its validity, 120 seconds by default, are over, and as of unknown age exactly when that time is not from the log |
| `QrLogin.RealTimesAreStamped` | kirara_ai/im/qr_login.py:367-447 | every time marked as real stands in the log |
| `QrLogin.WaitingMeansScannable` | kirara_ai/im/qr_login.py:500-558 | `waiting_scan` always comes with a generation time from the log and an expiry strictly in the future |
| `QrLogin.ShownTimesAreReal` | kirara_ai/im/qr_login.py:500-558 | no time is shown that is not in the log |
| `QrLogin.HotUpdatesAreSeparate` | kirara_ai/im/qr_login.py:303-558 | inserting or deleting hot-update lines changes no scan field, and the other way round |
| `InboundReceipts.InboundReceiptService.Open` | kirara_ai/im/inbound_receipts.py:82-98 | refuses blank names; keeps 32 and 128 characters of them |
| `InboundReceipts.InboundReceiptService.ClaimEvent` | kirara_ai/im/inbound_receipts.py:112-158 | the step for a claim, and true exactly when it is granted |
| `InboundReceipts.InboundReceiptService.CompleteEvent` | kirara_ai/im/inbound_receipts.py:160-171 | the step for a completion |
| `InboundReceipts.InboundReceiptService.RetryEvent` | kirara_ai/im/inbound_receipts.py:173-183 | the step for a retry |
| `InboundReceipts.InboundReceiptService.RecoverAll` | kirara_ai/im/inbound_receipts.py:185-209 | re-opens every row of this adapter in processing, and counts them |
| `InboundReceipts.ClaimsAreBalanced` | kirara_ai/im/inbound_receipts.py:112-209 | in every run: claims are re-openings plus one while processing, equal while claimable, and between the two once completed |
| `InboundReceipts.ClaimsAreBounded` | kirara_ai/im/inbound_receipts.py:112-209 | claims of an event never exceed its re-openings by more than one |
| `InboundReceipts.CompletedIsFinal` | kirara_ai/im/inbound_receipts.py:112-209 | a completed event is never granted or re-opened again, restarts included |
| `InboundReceipts.CallsDoTheirWork` | kirara_ai/im/inbound_receipts.py:112-183 | what a claim, a completion or a retry leaves of the event it names, and that it leaves every other event alone |
| `InboundReceipts.CompletionIsForGood` | kirara_ai/im/inbound_receipts.py:160-171 | completing a known event finishes it whatever follows, and it is never granted again |
| `InboundReceipts.RetryReopens` | kirara_ai/im/inbound_receipts.py:173-183 | a retried event is granted to the next claim of it |
| `InboundReceipts.ClaimsAreSeparated` | kirara_ai/im/inbound_receipts.py:112-209 | between two granted claims of an event lies a step that re-opened it |
| `InboundReceipts.PayloadsFollowTheirEvents` | kirara_ai/im/inbound_receipts.py:135-171 | an unfinished event keeps the payload last given for it, a completed one keeps none |
| `InboundReceipts.RecoveryUnblocks` | kirara_ai/im/inbound_receipts.py:185-209 | after a restart nothing of the adapter is stuck, each interrupted event can be claimed by exactly one caller, and finished rows are as before |
| `InboundReceipts.ScopesAreSeparate` | kirara_ai/im/inbound_receipts.py:112-233 | whatever other channels and adapters do, the row is as its own adapter left it |
| `AgentIdentity.CleaningFixesIdentifiers` | kirara_ai/agent_runtime/core.py:57-69 | cleaning gives an identifier, leaves exactly the identifiers alone, and is idempotent |
| `AgentIdentity.CollapseIs` | kirara_ai/agent_runtime/core.py:57-69 | characters of the class stay, and every run of others becomes one underscore |
| `AgentIdentity.NewContextsAreClean` | kirara_ai/agent_runtime/core.py:117-126 | every component of a context is an identifier |
| `AgentIdentity.CleanContextsAreKept` | kirara_ai/agent_runtime/core.py:117-126 | a context built from clean parts has each of them in its place |
| `AgentIdentity.SessionKeysAreUnique` | kirara_ai/agent_runtime/core.py:193-214 | two conversations never share a session key |
| `AgentIdentity.LegacyKeysFindOnlyTheirOwn` | kirara_ai/agent_runtime/core.py:193-204 | a binding under a session key is never found through another conversation's legacy key |
| `AgentIdentity.PlainLegacyKeysAreUnique` | kirara_ai/agent_runtime/core.py:200-204 | a conversation without slashes shares its legacy key with no other |
| `AgentIdentity.LegacyKeysCollide` | kirara_ai/agent_runtime/core.py:200-204 | two different conversations share a legacy key: the part of an adapter name behind a slash moved into the account, unless that leaves no name or makes one too long |
| `AgentDefinitions.CollectTeammates` | kirara_ai/agent_runtime/core.py:585-597 | distinct non-blank names in order, refused exactly when the Agent itself is among them |
| `AgentDefinitions.BindingsAreFixed` | kirara_ai/agent_runtime/core.py:245-263 | building a binding is idempotent, and its fixed points are the bindings that can exist |
| `AgentDefinitions.DefineGivesDefinitions` | kirara_ai/agent_runtime/core.py:560-609 | what a built Agent looks like |
| `AgentDefinitions.DefinitionsAreFixed` | kirara_ai/agent_runtime/core.py:560-609 | rebuilding an Agent gives it back, exactly when it has a non-blank model |
| `AgentRegistry.OwnersAreChecked` | kirara_ai/agent_runtime/core.py:1030-1063 | the ownership checks let through the same Agent with the creator's, or the current, owner |
| `AgentRegistry.NextKeepsValid` | kirara_ai/agent_runtime/core.py:724-952 | no operation leaves a dangling reference or an unclean key |
| `AgentRegistry.NextKeepsOwners` | kirara_ai/agent_runtime/core.py:724-952 | no operation changes the owner of an Agent that stays registered |
| `AgentRegistry.CreatorsOwnTheirAgents` | kirara_ai/agent_runtime/core.py:1030-1045 | a new Agent belongs to the registering creator, or to nobody |
| `AgentRegistry.ConfigureReplacesRelations` | kirara_ai/agent_runtime/core.py:784-863 | afterwards the Agent has exactly the channels, accounts and sessions given and is the default exactly when asked; other Agents keep theirs unless taken over |
| `AgentRegistry.DefaultStaysEnabledIff` | kirara_ai/agent_runtime/core.py:724-759 | the default Agent stays enabled under every operation but two |
| `AgentRegistry.DefaultCanBeDisabled` | kirara_ai/agent_runtime/core.py:752-759 | an update that leaves a disabled default |
| `AgentRegistry.RunsStayValid` | kirara_ai/agent_runtime/core.py:689-952 | every reachable state is valid |
| `AgentRegistry.OwnersAreForLife` | kirara_ai/agent_runtime/core.py:741-952 | along any run an Agent keeps its owner while it stays registered |
| `AgentRegistry.SerializeState` | kirara_ai/agent_runtime/core.py:1132-1158 | every Agent and binding is in the document once |
| `AgentRegistry.SavedStateComesBack` | kirara_ai/agent_runtime/core.py:1132-1253 | loading a saved state gives it back exactly when every Agent has a model, and fails otherwise |
| `AgentRegistry.BlankModelsBlockTheRestart` | kirara_ai/agent_runtime/core.py:560-580 | registering an Agent built from blank models makes the saved file unloadable |
| `AgentRegistry.LoadedIsValid` | kirara_ai/agent_runtime/core.py:1200-1253 | whatever file is accepted, the registry starts in a valid state |
| `AgentRegistry.NormalizeChannels` | kirara_ai/agent_runtime/core.py:808-810 | the channel keys, or the error exactly when one is unsupported |
| `AgentRegistry.NormalizeAccounts` | kirara_ai/agent_runtime/core.py:811-818 | the account keys, or the error exactly when a channel is unsupported |
| `AgentRegistry.Registry.Open` | kirara_ai/agent_runtime/core.py:692-703 | a broken file stops the start; otherwise the state is the loaded one |
| `AgentRegistry.Registry.Commit` | kirara_ai/agent_runtime/core.py:1065-1076 | memory and file change together or not at all; the reference check never fails |
| `AgentRegistry.Registry.RegisterAgent` | kirara_ai/agent_runtime/core.py:741-750 | the step for `register`, or the error and no change |
| `AgentRegistry.Registry.UpdateAgent` | kirara_ai/agent_runtime/core.py:752-759 | the step for `update` |
| `AgentRegistry.Registry.RemoveAgent` | kirara_ai/agent_runtime/core.py:761-775 | the step for `remove` |
| `AgentRegistry.Registry.SetDefaultAgent` | kirara_ai/agent_runtime/core.py:777-782 | the step for `set_default` |
| `AgentRegistry.Registry.SetAgentEnabled` | kirara_ai/agent_runtime/core.py:724-733 | the step for `set_enabled` |
| `AgentRegistry.Registry.ConfigureAgent` | kirara_ai/agent_runtime/core.py:784-863 | the step for `configure`, in one commit |
| `AgentRegistry.Registry.BindAgent` | kirara_ai/agent_runtime/core.py:865-915 | the step for the three `bind_` operations |
| `AgentRegistry.Registry.UnbindAgent` | kirara_ai/agent_runtime/core.py:872-925 | the step for the three `unbind_` operations |
| `AgentRegistry.Registry.UpdateResourceBindings` | kirara_ai/agent_runtime/core.py:927-952 | the step for a resource update |
| `AgentRouting.Resolve` | kirara_ai/agent_runtime/core.py:981-1004 | the loop returns the Agent of the first candidate there is, or the error |
| `AgentRouting.RoutesLeadToAgents` | kirara_ai/agent_runtime/core.py:981-1012 | in a valid registry a conversation gets its chosen Agent, and fails only without a default or on a disabled Agent |
| `AgentRouting.BindingsRouteTheirOwn` | kirara_ai/agent_runtime/core.py:865-1004 | a binding leads exactly the conversations it decides for to its enabled Agent, and every other one goes where it went before, even with legacy keys in use |
| `AgentRouting.UnbindingReleases` | kirara_ai/agent_runtime/core.py:917-925 | an unbound conversation has no Agent of its own; another one loses its Agent exactly when it has a legacy binding only and shares the legacy key |
| `AgentRouting.UnbindingCanReleaseAnother` | kirara_ai/agent_runtime/core.py:917-925 | two conversations of which one unbinding releases both |
| `AgentRouting.UnbindingFallsBack` | kirara_ai/agent_runtime/core.py:872-906 | unbinding an account or a channel sends just its conversations to the next binding |
| `AgentRouting.ResourcesAreReplaced` | kirara_ai/agent_runtime/core.py:927-952 | a resource update puts the new lists in place, keeps those not given, and changes nothing else |
| `AgentRouting.OnlyEnabledChanges` | kirara_ai/agent_runtime/core.py:724-733 | enabling or disabling an Agent changes nothing else |
| `AgentMessages.RequireValidToolPairs` | kirara_ai/agent_runtime/executor.py:1644-1671 | accepts exactly the paired lists |
| `AgentMessages.BuiltIsConversation` | kirara_ai/agent_runtime/executor.py:2227-2292 | a turn built on a paired history is paired and its current turn is the user message |
| `AgentMessages.InjectionKeepsConversation` | kirara_ai/agent_runtime/executor.py:2104-2119 | hook context never splits a call from its result and leaves the current turn alone |
| `AgentMessages.CatalogueKeepsConversation` | kirara_ai/agent_runtime/executor.py:2418-2436 | the tool catalogue joins the first system message and adds no message |
| `AgentMessages.FirstMessagesRecall` | kirara_ai/agent_runtime/executor.py:2227-2292 | the first messages of a turn are system messages, the stored history unbroken, and the user message |
| `AgentMessages.SavedHistoryIsPaired` | kirara_ai/agent_runtime/executor.py:2746-2762 | dropping system messages and adding the answer keeps pairing |
| `AgentMessages.SystemIsLeftOut` | kirara_ai/agent_runtime/executor.py:2757-2758 | saving leaves out exactly the system messages and keeps the order of the others |
| `AgentMessages.InjectionIsNotSaved` | kirara_ai/agent_runtime/executor.py:2104-2119 | what hooks add to the context is never saved |
| `ContextCompaction.CollectTurns` | kirara_ai/agent_runtime/executor.py:1702-1713 | the loop groups the history by user turns |
| `ContextCompaction.TurnsAreComplete` | kirara_ai/agent_runtime/executor.py:1700-1713 | the groups together are the end of the history from its first user message on |
| `ContextCompaction.DefaultCompactMessages` | kirara_ai/agent_runtime/executor.py:1673-1722 | the popping loop computes `DefaultCompact` |
| `ContextCompaction.KeptIsLongest` | kirara_ai/agent_runtime/executor.py:1715-1722 | what is kept fits, and no longer run of latest turns does |
| `ContextCompaction.DefaultKeepsLatestTurns` | kirara_ai/agent_runtime/executor.py:1673-1722 | the result is the system message, the longest fitting run of latest turns, or none, and the current turn |
| `ContextCompaction.ValidateCompactedMessages` | kirara_ai/agent_runtime/executor.py:1601-1642 | accepts a custom result exactly when system message, current turn and pairing are kept |
| `ContextCompaction.DefaultIsAcceptedIff` | kirara_ai/agent_runtime/executor.py:1601-1722 | when the default compaction meets that same check |
| `ContextCompaction.DefaultCanBeRefused` | kirara_ai/agent_runtime/executor.py:1601-1722 | no user message and the system message in second place: it does not |
| `ContextCompaction.MaybeCompactMessages` | kirara_ai/agent_runtime/executor.py:1477-1566 | nothing below the threshold, the custom result if accepted, else the default |
| `ContextCompaction.CompactionKeepsConversation` | kirara_ai/agent_runtime/executor.py:1477-1566 | whichever compactor ran: system message, current turn and pairing survive |
| `ContextCompaction.CompactionForgetsHookContext` | kirara_ai/agent_runtime/executor.py:1358-1367 | compacting with injected context gives what compacting without it gives |
| `ContextCompaction.CompactedComesFrom` | kirara_ai/agent_runtime/executor.py:1673-1722 | the default compaction only leaves messages out |
| `ContextCompaction.HookContextSurvivesIff` | kirara_ai/agent_runtime/executor.py:1358-1367 | injected context that was not there before is still there after a compaction step exactly below the threshold, or when an accepted custom compactor kept it |
| `ContextCompaction.HookContextIsLost` | kirara_ai/agent_runtime/executor.py:1358-1367 | two messages, a threshold of two, and a hook whose message is gone after one step |
| `AgentLoop.ExchangeKeepsConversation` | kirara_ai/agent_runtime/executor.py:2656-2674 | a call and its result, restated as two messages, keep pairing, whatever ids or names are missing |
| `AgentLoop.OfferedTeammatesExist` | kirara_ai/agent_runtime/core.py:643-686 | a delegation tool is offered exactly for each teammate that exists and is enabled, while depth is left, and its name leads back to that teammate |
| `AgentLoop.RequestIsGood` | kirara_ai/agent_runtime/executor.py:1049-1067 | one more request of a running chain keeps budget, pairing and the growing turn |
| `AgentLoop.ResumptionIsGood` | kirara_ai/agent_runtime/executor.py:660-716 | a consumed confirmation can be resumed one iteration below the limit |
| `AgentLoop.BudgetHolds` | kirara_ai/agent_runtime/executor.py:1047-1095 | a run with all its resumptions sends at most the `max_tool_iterations` + 1 of the Agent its requests were sent for |
| `AgentLoop.Executor.ExecuteModel` | kirara_ai/agent_runtime/executor.py:1059-1086 | the request is recorded, and the reply is what the model answers to it |
| `AgentLoop.Executor.HandleCall` | kirara_ai/agent_runtime/executor.py:1098-1178 | what is appended for each kind of call: a missing name, the tool search, a delegation, a skill, a tool not permitted, a tool behind hooks; or how the run halts on it; everything else is spared |
| `AgentLoop.Executor.HandleDelegation` | kirara_ai/agent_runtime/executor.py:1128-1149 | a delegation is a run of the teammate on the task, answered with its last word or an error, and leaves the delegating chain running |
| `AgentLoop.Executor.HandleMcpCall` | kirara_ai/agent_runtime/executor.py:1179-1367 | case by case: a hook's or a check's refusal is appended as an error and the tool does not answer; a confirmation is stored exactly when one is needed, nothing refuses it and the caller may control the Agent; otherwise the tool's own answer is appended, or the block of a hook behind it |
| `AgentLoop.ToolsAnswerWhenAllowed` | kirara_ai/agent_runtime/executor.py:1154-1367 | a tool's own answer enters the turn exactly when the Agent may use it, no hook or check refused it, no confirmation was needed and no hook held it back; a confirmation is asked for exactly when one is needed, nothing refuses it and the caller may control the Agent |
| `AgentLoop.Executor.HandleCalls` | kirara_ai/agent_runtime/executor.py:1097-1367 | all calls of a reply answered in order, up to the first the run halts on, which it waits for or a step of which raised |
| `AgentLoop.Executor.RunRound` | kirara_ai/agent_runtime/executor.py:1047-1367 | one round sends one request, the given list or its compaction, and nothing else of the chain; it is done on a reply without calls, in the last round, without a reply or on a halt, and has answered all calls otherwise |
| `AgentLoop.Executor.RunLoop` | kirara_ai/agent_runtime/executor.py:991-1378 | every further request is the compaction of an earlier one with all its calls answered; ends completed with the reply to a request of the loop, waiting for a call of it, or failed for a cause, never with the loop error |
| `AgentLoop.Executor.Run` | kirara_ai/agent_runtime/executor.py:417-620 | sends something exactly when the Agent is enabled, has a model and nothing raises before; its first request is the system messages, the stored history of the session's Agent and the user message, compacted where that is too large; each further one carries on an earlier one; a completed run saves its final messages and answer; otherwise nothing changes; other sessions keep their histories |
| `AgentLoop.Executor.DelegateToTeammate` | kirara_ai/agent_runtime/executor.py:1380-1474 | without a task or a known enabled teammate an error and no change; else a run of it on the task, one level deeper, with one level less to go and no stored history, that leaves the delegating chain alone |
| `AgentLoop.Executor.Confirm` | kirara_ai/agent_runtime/executor.py:660-990 | claims the confirmation, once; sends something exactly when the claim is granted, the Agent is enabled under the same policy and no check, hook or step stops it, and then the suspended list with the call's result, in the same chain one iteration further with the full delegation depth; ends as a run does, never with the loop error |
| `AgentSessions.Serve` | kirara_ai/agent_runtime/executor.py:417-1378 | over any sequence of messages, confirmations and registry changes, all that each command does: when it sends something, what first, how it ends and what is saved; every request and history is paired; every run keeps to the budget of its Agent, one the registry held; every request stands where messages, delegations and confirmations led; no call delegates deeper than the default depth |
| `AgentSessions.FirstRequestRecalls` | kirara_ai/agent_runtime/executor.py:479-485 | the first request for a message is the system messages, the stored history and the message, compacted where that is too large, and just that below the threshold |
| `AgentSessions.TurnsAreRemembered` | kirara_ai/agent_runtime/executor.py:2746-2762 | what a completed turn saved stands unbroken before the user message in the next request the session's Agent is sent, whatever other sessions do in between, with that turn's message and answer in it |
| `AgentSessions.MemoryOnlyGrows` | kirara_ai/agent_runtime/executor.py:991-1378 | with compaction off, what one completed turn saved, and the next message, is the beginning of what the next completed turn saves |
| `AgentSessions.AncestryIsBoundedIff` | kirara_ai/agent_runtime/executor.py:905-938 | counted from the first message, delegations made and left exceed the default depth exactly when a run begun by a delegation was taken up again by a confirmation |
| `AgentSessions.NestWithoutBound` | kirara_ai/agent_runtime/executor.py:905-938 | a session of two Agents with one message and n confirmations, whose last request stands 2 * (n + 1) delegations below that message |

## Left out

- Regular expressions: inline spans, structural lines, line roles and languages are given functions of the text, constrained only as the proofs need (spans are not empty and lie in the text; a blank line is no code).
- Line endings other than `\n`, lone surrogates, and case folding outside ASCII.
- `degrade_math`, Markdown rendering and the other formatters of `text_render.py`: they promise no invariant beyond their own bodies.
- The cut inside a code block may leave a fence-like line at the start of a body; no claim is made about rendering a page on its own.
- `_execute_chat` and `get_provider_candidates`: the non-streaming loop repeats the streaming one without partial output, and sorting candidates adds no harder property. The circuit breaker is a free answer to each `acquire`.
- Response cost (`calculate_cost_snapshot`, `_cost`, `_input_tokens`): arithmetic that would restate its bodies.
- `PriceCatalog.save` on an unbound catalog, which overwrites without a check, and a missing catalog file; lock timeouts. The file transaction is taken as atomic and SHA-256 as injective.
- ReleaseVersions.NextVersion: the token pattern is a given function of the text; refusing an unknown kind is not modelled.
- VersionSync: file contents are opaque, so which bytes a carrier gets, what `uv lock` writes and the final consistency check enter as `writes` and `rejected`; the protected files are not targets; writes reach the disk in order.
- VersionSync.Workspace.Recover: after a crash inside the deletion of the journal it refuses, as the source does, so no recovery is promised to return then.
- BackupRestore.DataDirectory.RestoreBackup: when a step of the undo raises as well, only the components that were not to be restored are claimed to be untouched; unpacking and validating the archive is not modelled.
- QrLogin: times are integers, so the clock-only pattern and time zones are gone; remediation texts are not modelled.
- InboundReceipts: the table is changed by one call at a time; two processes racing for one database are not modelled, nor is `status_counts`.
- AgentRegistry: the order of the saved lists, files of older formats with missing keys, the thread lock and `relation_summary`.
- AgentLoop: tracing, audit, memory, streaming and deadlines; what hooks, tools and tool search answer is arbitrary; runs do not interleave; replies have the assistant role; the list of teammates is the registry's.
- AgentLoop.Executor.Run: takes its history from the session store, or none when delegated; history from the memory manager may start inside a pair and is not covered.
- AgentLoop.Executor.Confirm: makes no claim about two confirmations of one call at the same time.
