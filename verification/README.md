# Crate: verified models

Crate is an Obsidian plugin whose server runs on Cloudflare. The plugin installs, upgrades, backs up, restores and
deletes that server through an API whose answers can be lost and whose requests can land late. These models cover
the protocols that make this safe, and the order, index and codec algorithms that the sync protocol depends on.

| files | what they model |
|---|---|
| `FenceRecords`, `FenceCalls`, `FenceProtocol`, `FenceSafety`, `FenceTheorems`, `FenceDeletion` | the deployment fence: any number of clients, one row, late requests, recovery, deletion takeover and operator steps, as a state machine with an inductive invariant and theorems over every run |
| `FenceSteps`, `FenceRecovery`, `FenceProgress` | which steps an update and a deletion take, how often and in which order; that an attempt interrupted at any of them can go on; and that one that nobody disturbs gets through |
| `DeploymentFence`, `UpdateRecovery`, `FenceRefinement` | the fence object and the recovery check as imperative code over a shared row; they use the same record, request and decision functions as the state machine, and a fenced mutation is shown to take its steps |
| `UpgradePause`, `UpgradeAttempt`, `UpgradeExport`, `UpgradeRun`, `BackupStore`, `PagedListing`, `Sorting` | the write guards and saved progress of an upgrade, one attempt at its backup and migrations request by request, the resumable export, guards and export put together over any run, the content-addressed backup store, its pruning, and cursor-paged listings |
| `Text`, `Numbers`, `DumpCodec`, `DumpRoundTrip`, `BackupReader`, `BackupGrammar`, `BackupRoundTrip` | the SQL printer of a backup, its reader, the reader's scanning loops, the grammar of what it accepts, numbers as they are rounded and printed, and the way from the paused tables through an interrupted export back to their rows |
| `RestoreBatches`, `RestoreSql`, `RestoreRuns` | guarded restore batches and their SQL text, a reader of that text, and what repeated, lost or late executions of the texts leave behind |
| `ServerDeletion`, `Migration`, `PluginInstall` | phase machines that survive a stop at any call |
| `CodePoints`, `ImportPages`, `Paths`, `PathSafety`, `NamespaceConflicts`, `PathTags`, `PathTagNames`, `PathTagRuns` | path order, inventory pages, the conflict index, encrypted path names, what they tell apart, and their bounded cache |
| `BitStrings`, `Base32`, `Base64Url`, `JsonBytes`, `JsonText`, `BucketClear`, `NotificationDisplay` | codecs over real bit arithmetic, the JSON text of strings and its length in bytes, and the byte-budget loops |

How the environment is modelled: a process stops after a given number of calls, or at a call whose answer is lost; a
request that was sent may take effect at any later point, once, or never; what other parties do between two calls is
a parameter or, in the fence protocol, an event of the run. Where a result says that something gets done, it names
what must not come in between: an unanswered request, another party, or a resource that outlives its removal.
Cryptographic hashes, keyed hashes and ciphers are parameters; injectivity is a hypothesis only where a theorem names
it.

## What turned out differently

- **Exclusive dispatch.** One would expect that, whenever a client sends a fenced mutation, nothing else that matters
  is in flight. That fails: an owner that recorded a repeatable deletion step and was then displaced may still send
  it while its successor's upload is in flight (`FenceTheorems.DisplacedDispatchIsNotExclusive` gives the run).
  `FenceTheorems.DispatchIsExclusive` says exactly when it holds: unless the row is the started record of a request
  that matters and is in flight. A client could rule that out from the row alone, which must be absent, not started,
  benign or its own; with a step that matters it never happens. `FenceTheorems.OneConsequentialRequest` needs no
  condition, and `FenceDeletion.UpdatesRunWithoutDeletions` excludes any request of a deletion beside an update's.
- **Backup sizes.** A listing may leave an object's size out, and then nothing compares it with the size in the
  database. `BackupStore.Bucket.FinishArchive` gives the exact condition: the sizes in a finished manifest match if
  and only if no part and no reference gives a wrong size to an object that stood already with its size unlisted;
  `BackupStore.PerformAll` carries that through any sequence of operations, and
  `BackupStore.UnreportedSizeIsNotCompared` finishes a backup that violates it. Checksums always match, and so sizes
  do if listings report them or the database's sizes are true.
- **Integers that are not safe.** The printer writes every finite number, the reader refuses integers beyond
  9007199254740991. So a backup that holds one is finished but cannot be read (`DumpRoundTrip.UnreadableBackup`):
  `DumpRoundTrip.DumpRoundTrips` and `BackupRoundTrip.FinishedBackupReadsBack` say that a backup reads back exactly
  if it holds none, and is refused as a whole otherwise. Every other number survives, binary64 rounding and the
  forms that `String` prints included (`DumpCodec.CellRoundTrip`, `Numbers.NumberTextDenotes`).
- **The folder cache of `PathTags`** is not invisible for every set of paths: behind an empty first segment it takes
  the next name for a folder at the top. Over every interleaving of calls from the empty cache, each call for a path
  of a set gets its uncached form if and only if no two of the paths clash, that is, one begins with a slash and
  holds another one, and its second name has the portable form of the first name of a path with a folder
  (`PathTagRuns.CacheIsInvisibleExactly`; a path may clash with itself). A path clashes with no other exactly if it
  does not begin with a slash and hold another one (`PathTagRuns.HarmlessExactly`), as none that sync accepts does
  (`PathTagRuns.AcceptedPathsAreSeparate`). Both sides of a clash suffer: `PathTags.CacheShowsForHiddenFolders` gives
  an earlier call after which the path with the slash is wrong, `PathTagRuns.HiddenSpoilsAnchored` a later one that
  it spoils.
- **`fitsEncryptedPathLimit`** counts `.md` for the last name only, as its comment says, but tags add it to folders
  whose portable name ends so as well. `PathTags.LimitsAgree` gives the exact condition under which the check and
  `wire` agree, `PathTags.FolderNotesOverflow` a path on which they differ.
- **`trimDisplay`** stays within its budget exactly if the budget is at least the three bytes of its ellipsis or
  nothing has to be trimmed; its callers use 800 and 160.

## Model

| member | source | states |
|---|---|---|
| FenceRecords.RecoveryOnlyTakesSettledOrBenign | src/cloudflare/deployment/update-recovery.ts:86-110 | recovery lets go only of settled records, or of a pending address activation; it unlocks exactly settled update steps that owe no verification |
| FenceCalls.UpdateDisciplined | src/cloudflare/deployment/provisioner.ts:168-222 | whatever an update finds, verification is required before each step that changes code, schema or writers, and given up only by its very last call |
| FenceCalls.DatabaseDisciplined | src/cloudflare/deployment/database.ts:84-101 | the schema part of an update never migrates or initializes without having required verification |
| FenceCalls.ReleaseDisciplined | src/cloudflare/deployment/update-recovery.ts:171-173 | a verification-only retry keeps the same discipline |
| FenceCalls.DeletionDisciplined | src/cloudflare/server-reset/delete.ts:41-124 | a deletion never completes a verification; its row is held by the deletion flag |
| FenceSteps.UpdateOccurrences | src/cloudflare/deployment/provisioner.ts:168-222 | an update makes each call exactly as often as what it finds demands: one upload, each migration once, a freeze exactly if a backup is yet to be copied |
| FenceSteps.UpdateInOrder | src/cloudflare/deployment/provisioner.ts:173-222 | bucket, freeze, backup and migrations before the upload, the release record and the end of the verification behind everything else |
| FenceSteps.MigrationsInSequence | src/cloudflare/deployment/database.ts:93-96 | the migrations are sent one behind the other, in the order of the release |
| FenceSteps.GuardsKeepItRequired | src/cloudflare/restore/upgrade-checkpoint.ts:203-204 | an upgrade that finds any write guard keeps the row held until its last call |
| FenceSteps.DebtIsAnnounced | src/cloudflare/deployment/provisioner.ts:175-183 | verification is required right before each of freeze, first migration or initialization, and upload, and nowhere else unless guards are found |
| FenceSteps.DeletionOccurs | src/cloudflare/server-reset/delete.ts:50-121 | a deletion removes each resource that it finds once, and publishes its helper exactly to empty a bucket |
| FenceSteps.DeletionInOrder | src/cloudflare/server-reset/delete.ts:50-121 | the Worker first, the bucket only once it is empty, the database last |
| FenceSteps.UpdateStepsAreKnown | src/cloudflare/deployment/fence.ts:16-28 | the list of update steps is exactly what updates record besides migrations |
| FenceSteps.DeletionStepsAreRepeatable | src/cloudflare/deployment/fence.ts:22-28 | the list of repeatable steps is exactly what deletions record besides the upload |
| FenceSteps.InterruptedUpdateGoesOn | src/cloudflare/deployment/update-recovery.ts:86-103 | behind every call of every update the record left there is verified or resumed: verified exactly if that build is live and was published, and otherwise resumed by the right build, if there is one |
| FenceSteps.InterruptedVerificationGoesOn | src/cloudflare/deployment/update-recovery.ts:94-103 | the same for an update that stops before its first call, and for a verification-only retry |
| FenceSteps.DeletionTakesOver | src/cloudflare/server-reset/delete-fence.ts:21-34 | a deletion takes over its own record at each of its steps, also with a request in flight, except for an upload that neither settled nor is live; any other record exactly if it is settled |
| FenceRecovery.CallRecordsItsStep | src/cloudflare/deployment/fence.ts:121-173 | each fenced call records the step that it is for |
| FenceRecovery.RecordCarries | src/cloudflare/deployment/fence.ts:144-147 | what a record carries on, and that the batch of one call does not outlive it |
| FenceRecovery.SettledUpdateIsNeverStuck | src/cloudflare/deployment/update-recovery.ts:86-110 | in every run a settled record of an update is released if nothing is owed, and otherwise resumed or verified by its build |
| FenceRecovery.DeletionIsNeverStuck | src/cloudflare/server-reset/delete-fence.ts:21-34 | in every run the deletion in the row may take it over, exactly unless its helper's upload has neither an answer nor shown up |
| FenceRecovery.AcquiredGoesOn | src/cloudflare/deployment/fence.ts:199-203 | an attempt stopped right behind its acquisition is offered again for what it was |
| FenceRecovery.GoneCountsAsDone | src/cloudflare/server-reset/delete.ts:38-40 | a removal whose resource is already gone counts as done; every other refusal is recorded as one |
| FenceProgress.UndisturbedUpdateFinishes | src/cloudflare/deployment/fence.ts:191-229 | from any reachable state an update, resumption or verification that may start, and that nobody disturbs, sends each of its steps once, owes nothing in the end and frees the row |
| FenceSafety.CommitKeepsGuard | src/cloudflare/deployment/fence.ts:144-158 | no database request that wins, however late, uncovers a started step that can still matter |
| FenceSafety.CommitKeeps | src/cloudflare/deployment/fence.ts:144-158 | a late compare-and-set, insert or delete keeps the invariant |
| FenceSafety.AcquireKeeps | src/cloudflare/deployment/fence.ts:198-221 | acquisition, fresh or over an inspected predecessor, keeps the invariant |
| FenceSafety.UseKeeps | src/cloudflare/deployment/fence.ts:121-126 | starting a fenced call keeps the invariant |
| FenceSafety.ProviderReplyKeeps | src/cloudflare/deployment/fence.ts:128-140 | recording how the provider answered keeps the invariant |
| FenceSafety.SendKeeps | src/cloudflare/deployment/fence.ts:121-129 | dispatching a request keeps the invariant; a dispatch that owes verification goes out under a row that says so |
| FenceSafety.RecoveryKeeps | scripts/crate-deployment-fence.py:38-74 | the operator's release and settle, and the recovery check's promotion and unlock, keep the invariant |
| FenceSafety.InspectionIsSafe | src/cloudflare/server-reset/delete-fence.ts:22-34 | the inspection before a takeover establishes that the replaced row hides no request that matters |
| FenceSafety.StepKeeps | src/cloudflare/deployment/fence.ts:110-189 | every event of every party keeps the invariant |
| FenceTheorems.LateRequestsAreFenced | src/cloudflare/deployment/fence.ts:121-141 | in every run, a request that can still land and is neither an address activation nor a repeatable deletion step has its own started record in the row |
| FenceTheorems.OneConsequentialRequest | src/cloudflare/deployment/fence.ts:121-141 | of any two requests that can still land, one is benign: no late upload or schema write lands over a later owner's work |
| FenceTheorems.SettledRowIsQuiet | src/cloudflare/deployment/fence.ts:73-76 | under a settled or absent row no request that matters is in flight |
| FenceTheorems.DispatchIsExclusive | src/cloudflare/deployment/fence.ts:121-141 | at a dispatch everything else in flight is benign exactly if the row is not the started record of a request in flight that matters; what the row shows beforehand, or a step that matters, rules that out |
| FenceTheorems.DisplacedDispatchIsNotExclusive | src/cloudflare/server-reset/delete-fence.ts:22-34 | not every dispatch is exclusive: a run in which a displaced benign request joins a successor's upload |
| FenceTheorems.OwnershipIsLinear | src/cloudflare/deployment/fence.ts:198-221 | once the row has left an owner it never returns to it |
| FenceTheorems.LostOwnerNeverWins | src/cloudflare/deployment/fence.ts:144-158 | no database request of an owner that lost the row wins afterwards, whatever earlier text it expects |
| FenceTheorems.LostOwnerStartsNothing | src/cloudflare/deployment/fence.ts:121-124 | after losing the row an owner records and starts no further step |
| FenceTheorems.DebtIsOwed | src/cloudflare/deployment/fence.ts:166-173 | the debt of the state machine is what the history of dispatches, completed verifications and database removal says |
| FenceTheorems.DebtKeepsTheRowHeld | src/cloudflare/deployment/fence.ts:166-189 | while verification is owed the row stays held and flagged, through resume, verify, settle, release and takeover |
| FenceDeletion.StepKeepsDeletion | src/cloudflare/deployment/fence.ts:144-158 | every event keeps the row a deletion's once a deletion record has been in it, and keeps every request sent under a record that was |
| FenceDeletion.DeletionIsForGood | src/cloudflare/server-reset/delete-fence.ts:5-26 | once a deletion holds the row, no update ever holds it again |
| FenceDeletion.DeletionRequestsHaveADeletionRow | src/cloudflare/server-reset/delete.ts:41-124 | a request of a deletion, however late, only ever exists while a deletion holds the row |
| FenceDeletion.UpdatesRunWithoutDeletions | src/cloudflare/deployment/fence.ts:91-100 | beside an update's upload or schema write nothing can land but address activations: no request of a deletion has been sent |
| FenceDeletion.DeletionsRunWithoutUpdates | src/cloudflare/deployment/fence.ts:91-100 | once a deletion has sent anything, only address activations of updates can still land |
| DeploymentFence.DeploymentFence.constructor | src/cloudflare/deployment/fence.ts:115-119 | which flags a fence object takes from its record |
| DeploymentFence.DeploymentFence.RecordStep | src/cloudflare/deployment/fence.ts:144-158 | compare-and-set from the exact known record; any other outcome leaves the owner uncertain and its known record unchanged |
| DeploymentFence.DeploymentFence.Mutate | src/cloudflare/deployment/fence.ts:121-141 | the operation runs only right behind this owner's started record; all outcomes, with others writing the row at any point in between |
| DeploymentFence.DeploymentFence.CompleteVerification | src/cloudflare/deployment/fence.ts:169-173 | the flag is cleared only by a confirmed record; otherwise it is owed again |
| DeploymentFence.DeploymentFence.Finish | src/cloudflare/deployment/fence.ts:177-188 | the row is released only when nothing is owed, and never another owner's |
| FenceRefinement.MutateFollowsProtocol | src/cloudflare/deployment/fence.ts:121-158 | the code of a fenced mutation takes the steps of the state machine's client: fields, row and result agree at every answer, and where an answer is lost it stops |
| FenceRefinement.CompleteFollowsProtocol | src/cloudflare/deployment/fence.ts:169-173 | completing a verification is the client's `Use` and `RecordReply`; unanswered, it stays owed |
| FenceRefinement.FinishFollowsProtocol | src/cloudflare/deployment/fence.ts:177-188 | the release is the client's `End` |
| FenceRefinement.RecoveryFollowsProtocol | src/cloudflare/deployment/update-recovery.ts:66-106 | the recovery check changes the row only by `PromoteUpload` and `UnlockSettled`, where the state machine allows them |
| UpdateRecovery.RecoverDeployment | src/cloudflare/deployment/update-recovery.ts:31-111 | the row changes only from the exact inspected text; every branch and report of the check; what it reports as removed was settled, of this update, and owed no verification |
| UpdateRecovery.PromotedUploadResumes | src/cloudflare/deployment/update-recovery.ts:69-85 | an upload promoted by its live receipt can only be resumed by the same build |
| UpdateRecovery.OffersAreAccepted | src/cloudflare/deployment/update-recovery.ts:120-125 | what recovery offers to verify or resume is exactly what the completion, with its format checks, and the provisioner accept |
| UpgradePause.StepKeeps | src/cloudflare/deployment/database.ts:15-34 | while a backup is exported every guard stands and the guarded tables hold what they held at its freeze, whatever writer, stale attempt, release or migration comes |
| UpgradePause.EpochStays | src/cloudflare/restore/upgrade-checkpoint.ts:205-228 | an export that was left behind is never taken up again |
| UpgradePause.SavedExportWasPaused | src/cloudflare/restore/upgrade-checkpoint.ts:205-231 | if a saved position is read and the same export still stands later, the tables were paused all along |
| UpgradePause.InterruptedExportContinues | src/cloudflare/restore/upgrade-checkpoint.ts:201-231 | with the guards read before the progress, an export that stood all along is continued; it is started over only if it began between the two queries |
| UpgradePause.ReleaseResumesWriters | src/cloudflare/deployment/database.ts:29-34 | the release lets every writer go on, and the next upgrade starts a backup of its own |
| UpgradeAttempt.CompleteWasFinished | src/cloudflare/restore/upgrade-checkpoint.ts:269-272 | whoever reads a complete backup: in every run some request finished it, under all guards and with the guarded tables as they were frozen, and nothing has moved it since |
| UpgradeAttempt.BackedUpWasFinished | src/cloudflare/restore/upgrade-checkpoint.ts:201-207 | an attempt skips the backup only under all guards and for a complete backup that was finished so |
| UpgradeAttempt.Attempt.CreateUpgradeCheckpoint | src/cloudflare/restore/upgrade-checkpoint.ts:193-233 | request by request with others in between: when it is done the backup is complete, the one it read or one that continues it or a new one, exactly by what it read; which fenced calls it makes; and that only an unanswered request or another attempt keeps it from getting done |
| UpgradeAttempt.Attempt.UpgradeDatabase | src/cloudflare/deployment/database.ts:84-96 | it migrates only under a complete backup that some request finished; undisturbed it applies every migration in order and leaves the writers paused over the last one's tables |
| UpgradeExport.BehindSorted | src/cloudflare/restore/upgrade-checkpoint.ts:28-32 | a keyset condition on a sorted table is a suffix of it |
| UpgradeExport.PageExtends | src/cloudflare/restore/upgrade-checkpoint.ts:37-45 | one more page extends the exported rows exactly up to its last key; a page that is not full ends the table |
| UpgradeExport.Server.Checkpoint | src/cloudflare/restore/upgrade-checkpoint.ts:156-167 | a part is stored before the position moves; stopped in between, the saved progress is unchanged |
| UpgradeExport.Server.SaveProgress | src/cloudflare/restore/upgrade-checkpoint.ts:77-85 | compare-and-set of the saved progress |
| UpgradeExport.Server.ExportPage | src/cloudflare/restore/upgrade-checkpoint.ts:166-170 | one page is printed and checkpointed once a part is full; parts and buffer hold exactly the rows up to its last key |
| UpgradeExport.Server.NextTable | src/cloudflare/restore/upgrade-checkpoint.ts:161-173 | a definition is printed once, also across a stop within its table |
| UpgradeExport.Server.DumpDatabase | src/cloudflare/restore/upgrade-checkpoint.ts:148-184 | stopped after any number of calls, with other attempts before each of them, the saved progress still names parts that cover exactly what lies before its position; exactly a position behind the last table is refused |
| UpgradeExport.FinishedIsOnePass | src/cloudflare/restore/upgrade-checkpoint.ts:146-184 | however often it was interrupted, a finished export of paused tables is the export in one pass |
| UpgradeExport.FinishedHoldsEveryGuardedRow | src/cloudflare/deployment/database.ts:15-20 | with writable control tables among them: header once, every definition once, every guarded row exactly once in key order |
| UpgradeExport.ExportWithInterruptions | src/cloudflare/restore/upgrade-checkpoint.ts:229-231 | any number of interrupted attempts, with others beside them |
| UpgradeRun.ReadsWhatWasFrozen | src/cloudflare/restore/upgrade-checkpoint.ts:205-231 | between reading a saved position and a compare-and-set that still finds the same export, a guarded table reads as it was frozen, in any run of writers, attempts, releases and migrations |
| UpgradeRun.ExportSeesPausedTables | src/cloudflare/deployment/database.ts:15-34 | that tables are paused, which the export relies on, is what the guards give it in every run, however its calls are scheduled |
| UpgradeRun.FinishedHoldsWhatWasFrozen | src/cloudflare/restore/upgrade-checkpoint.ts:148-184 | a finished export that still stands holds exactly the guarded rows frozen when it began |
| BackupStore.PutKeeps | src/cloudflare/restore/upgrade-checkpoint.ts:105-122 | storing bytes under their checksum keeps every manifest complete |
| BackupStore.SizesStay | src/cloudflare/restore/upgrade-checkpoint.ts:105-122 | whether a manifest's sizes match never changes while it is complete |
| BackupStore.DeleteKeeps | src/cloudflare/restore/upgrade-backups.ts:91-98 | deleting a manifest before its parts, and only unlisted copies, keeps every remaining manifest complete |
| BackupStore.Bucket.CopyToStore | src/cloudflare/restore/upgrade-checkpoint.ts:107-122 | a required copy is present with its checksum afterwards and in the listing, and with its size exactly unless one of another size stood already unlisted; what fails, and that nothing else changes |
| BackupStore.Bucket.CopyFilesBeforePause | src/cloudflare/restore/upgrade-checkpoint.ts:124-136 | when it is done every referenced file is in the store or gone; it fails only for a file that does not match its reference |
| BackupStore.Bucket.CollectFiles | src/cloudflare/restore/upgrade-checkpoint.ts:241-248 | each referenced file once; it fails exactly on two references to one key that disagree |
| BackupStore.Bucket.FinishArchive | src/cloudflare/restore/upgrade-checkpoint.ts:237-266 | a manifest is written only over present parts and copies, and lists every reference and the shared settings; its sizes match exactly if none was misstated; when it fails or is stopped |
| BackupStore.Bucket.DeleteBackup | src/cloudflare/restore/upgrade-backups.ts:91-98 | while the manifest stands nothing of the backup is gone |
| BackupStore.Bucket.ChooseRemovable | src/cloudflare/restore/upgrade-backups.ts:76-85 | exactly the backups without a manifest and the complete ones but the newest |
| BackupStore.Bucket.PruneUpgradeBackups | src/cloudflare/restore/upgrade-backups.ts:68-109 | stopped anywhere: every remaining manifest complete, the newest and every backup protected at its check kept; finished: exactly the rest gone, exactly the unlisted copies gone |
| BackupStore.PerformAll | src/cloudflare/restore/upgrade-checkpoint.ts:205-232 | the store invariant over any sequence of backups, prunes and writers, each stopped after any object operation; which manifests have matching sizes, exactly |
| BackupStore.UnreportedSizeIsNotCompared | src/cloudflare/restore/upgrade-checkpoint.ts:103-122 | a backup that is finished with a wrong size |
| PagedListing.List | src/cloudflare/restore/archive.ts:24-36 | every page once, in order, until none follows; a repeated cursor stops the listing |
| Numbers.RoundIsNearest | src/cloudflare/restore/archive.ts:131-131 | the number that a numeral is read as: no binary64 number is nearer to its decimal value |
| Numbers.RoundIsDouble | src/cloudflare/restore/archive.ts:131-131 | that number is a binary64 one, if it is finite |
| Numbers.NumberTextDenotes | src/cloudflare/d1-sql.ts:4-4 | every finite number is printed, in digits, with a point or with an exponent, as a text that reads as it again |
| DumpCodec.IntegerCell | src/cloudflare/restore/archive.ts:131-131 | an integer in digits is read exactly if it is safe: rounding makes no other one safe |
| DumpCodec.ReadCellIsAllowed | src/cloudflare/restore/archive.ts:129-132 | what is read outside quotes is a value that is printed and reads back |
| DumpCodec.CellRoundTrip | src/cloudflare/restore/archive.ts:129-132 | a printed null or number reads back, exactly unless it is an unsafe integer |
| DumpCodec.LeastUnsafeInteger | src/cloudflare/d1-sql.ts:4-4 | 9007199254740992 is printed and refused |
| DumpCodec.StatementSplits | src/cloudflare/restore/archive.ts:98-107 | a quote-balanced statement with its semicolon is split off as it is |
| DumpCodec.DoubleWalk | src/cloudflare/d1-sql.ts:2-4 | doubled quotes keep a scan inside the quoted text, whatever that text holds |
| DumpCodec.CellsRoundTrip | src/cloudflare/restore/archive.ts:116-137 | reading a printed list of values gives back the values, exactly if none is an unsafe integer |
| DumpCodec.InsertRoundTrip | src/cloudflare/restore/upgrade-checkpoint.ts:168-168 | reading a printed row gives back table, columns and values, exactly if no value is an unsafe integer |
| DumpRoundTrip.InsertIsStatement | src/cloudflare/restore/upgrade-checkpoint.ts:168-168 | a printed row is one statement, and one that is read as a row |
| DumpRoundTrip.DumpRoundTrips | src/cloudflare/restore/archive.ts:98-142 | reading a whole backup gives exactly the printed rows in order, then the sequence rows, if none holds an unsafe integer, and nothing otherwise |
| DumpRoundTrip.UnreadableBackup | src/cloudflare/restore/archive.ts:131-132 | a backup of one row that is printed and cannot be read |
| BackupReader.SplitStatements | src/cloudflare/restore/archive.ts:99-107 | the scanning loop with its look-ahead computes the statement split, and refuses a text that is cut short |
| BackupReader.ReadQuoted | src/cloudflare/restore/archive.ts:120-127 | the inner loop over a quoted value undoes doubled quotes up to the closing one |
| BackupReader.ReadCells | src/cloudflare/restore/archive.ts:116-137 | the offset loop over a value list computes its values, with numbers rounded and checked, or refuses it |
| BackupReader.ParseBackupRows | src/cloudflare/restore/archive.ts:98-142 | the whole reader as the source runs it |
| BackupGrammar.ReadsExactly | src/cloudflare/restore/archive.ts:97-142 | for every text and every list of rows: the reader returns these rows if and only if the text is made of definitions and of INSERTs of just these rows, literals only, under a grammar that does not mention the reader |
| BackupGrammar.SkippedExactly | src/cloudflare/restore/archive.ts:110-110 | passed over are exactly empty statements, the pragma, the emptying of the sequence table, and definitions of tables and indexes, told by their words |
| BackupGrammar.InsertsExactly | src/cloudflare/restore/archive.ts:111-139 | a statement is read as a row exactly if it is an INSERT into a quoted table or the sequence table, with as many literals as distinct identifiers for columns |
| BackupGrammar.ValuesExactly | src/cloudflare/restore/archive.ts:116-137 | a value list is read exactly if it is literals between commas, with any white space |
| BackupGrammar.BackupsAreUnambiguous | src/cloudflare/restore/archive.ts:98-142 | no text of the grammar has two readings |
| BackupRoundTrip.TextIsPrinted | src/cloudflare/restore/upgrade-checkpoint.ts:161-173 | the exported text of some tables is the printed one |
| BackupRoundTrip.FinishedBackupReadsBack | src/cloudflare/restore/archive.ts:98-142 | however often the export was interrupted, reading its stored parts gives exactly the rows of every guarded table in key order, and the sequence rows, unless a value is an unsafe integer |
| RestoreBatches.RowBatches | src/cloudflare/restore/server-restore.ts:32-43 | the batches partition the rows in order, hold at most 40, end only where the next row does not fit, and each is the text of its rows' statements and of its own advance, all expecting its own marker; it fails exactly on a row that is refused |
| RestoreSql.StatementReads | src/cloudflare/restore/server-restore.ts:23-31 | a reader that knows nothing of the writer gets from each statement's text its verb, table, columns, values and the marker that its condition compares |
| RestoreSql.QueryReads | src/cloudflare/restore/server-restore.ts:32-43 | the text of a whole batch is split and read as exactly its statements |
| RestoreSql.ParsedRowsArePrepared | src/cloudflare/restore/archive.ts:98-142 | every row that the backup reader accepts, from whatever text, has statements that read back |
| RestoreRuns.TextMeansQuery | src/cloudflare/restore/server-restore.ts:129-140 | the text that is sent for a batch, or for the jobs, has exactly the effect of its guarded statements |
| RestoreRuns.QueryIsText | src/cloudflare/restore/server-restore.ts:23-43 | the text that the batch loop returns is that of the query for its place |
| RestoreRuns.RowsRun | src/cloudflare/restore/server-restore.ts:23-31 | the guarded statements of a batch take effect together or not at all |
| RestoreRuns.ExactlyOnce | src/cloudflare/restore/server-restore.ts:129-140 | after any history of repeated, lost and late executions the database holds exactly the rows of its first batches, as many as its marker says |
| RestoreRuns.RestoredContents | src/cloudflare/restore/server-restore.ts:25-29 | a finished restore holds the rows once and in order, for each backed-up sequence exactly its own row, and its jobs once |
| RestoreRuns.Database.Restore | src/cloudflare/restore/server-restore.ts:106-140 | an attempt resumes behind the marker and sends texts; it refuses exactly a database with another operation's marker, untouched; stopped anywhere it never loses rows, ended by itself it has restored all, and with enough calls it ends so |
| ServerDeletion.LandKeeps | src/cloudflare/server-reset/delete.ts:41-124 | a request that lands late does so in order, and un-does nothing |
| ServerDeletion.Client.Send | src/cloudflare/server-reset/delete.ts:42-45 | sending a request in order keeps every invariant, whatever its answer |
| ServerDeletion.Client.Mutate | src/cloudflare/server-reset/delete.ts:38-45 | between its two records; a removal whose resource is already gone counts as done, no other failed request does |
| ServerDeletion.Client.VerifyTarget | src/cloudflare/server-reset/delete.ts:94-102 | a batch is sent only while the server is gone, the bucket is there, and the helper is this attempt's |
| ServerDeletion.Client.CheckReceipt | src/cloudflare/server-reset/delete.ts:27-35 | an unfenced upload in flight blocks the next attempt until its helper is published |
| ServerDeletion.Client.CheckFence | src/cloudflare/server-reset/delete-fence.ts:8-34 | a fenced upload in flight blocks a takeover until its helper is published |
| ServerDeletion.Client.PublishHelper | src/cloudflare/server-reset/delete.ts:63-88 | the receipt is recorded before the upload and cleared only by a definite answer |
| ServerDeletion.Client.RemoveResources | src/cloudflare/server-reset/delete.ts:41-124 | Worker and namespaces, then the bucket, then the database; with every request answered and no removed resource lingering, each one that was there is removed and nothing else is done |
| ServerDeletion.Client.Attempt | src/cloudflare/server-reset/delete.ts:12-143 | one attempt, ended anywhere; a finished one has reached the last phase. Undisturbed it always finishes, and its effects are the removals of everything that was there, in order |
| ServerDeletion.Client.Attempts | src/cloudflare/server-reset/delete.ts:12-143 | over any interrupted and retried attempts every effect is in order and the saved phase never moves back |
| ServerDeletion.FinishedStaysGone | src/cloudflare/server-reset/delete.ts:131-142 | a finished deletion has left nothing, and nothing in flight brings anything back |
| Migration.PlanDatabaseUpgrade | src/cloudflare/deployment/database-upgrade-rules.ts:24-48 | refused exactly for an invalid chain or an unsupported version; otherwise the rest of the chain |
| Migration.ValidateMigrationHistory | src/cloudflare/deployment/database-upgrade-rules.ts:50-57 | accepts exactly the receipts of the migrations gone through, in any order |
| Migration.TransactKeeps | src/cloudflare/deployment/database-upgrade-rules.ts:60-68 | a migration transaction, in turn or not, keeps the history valid and moves the version by at most one |
| Migration.HistoryStaysValid | src/cloudflare/deployment/database-upgrade-rules.ts:50-68 | over any repeated or late transactions each migration runs at most once and in order, and the version neither skips nor goes back |
| Migration.ReceiptsGuard | src/cloudflare/deployment/database-upgrade-rules.ts:60-68 | whatever a database holds and whatever is sent to it, no migration leaves a second receipt, and each receipt stands for one that ran |
| Migration.ReplanReaches | src/cloudflare/deployment/database.ts:84-96 | re-planning from any reached version leads to the target with exactly the expected receipts |
| Migration.Server.Upgrade | src/cloudflare/deployment/database.ts:84-96 | an attempt with late transactions in between; completed, it is at the target, and undisturbed it completes |
| PluginInstall.Host.ClearStaging | src/plugin/crate-update/install.ts:135-141 | removing staged files in any order, stopped anywhere, stays recoverable |
| PluginInstall.Host.Resume | src/plugin/crate-update/install.ts:70-84 | a completed resume leaves one release as a whole, the journaled one if one was committed |
| PluginInstall.Host.Install | src/plugin/crate-update/install.ts:53-63 | stopped anywhere, also inside a write, the plugin stays recoverable; a present journal means staged and verified files, or targets already new |
| PluginInstall.Lives | src/plugin/crate-update/sync.ts:75-83 | over any number of processes that resume first, a completed resume leaves one whole release |
| PluginInstall.Live | src/plugin/crate-update/sync.ts:75-83 | one process: getting through, it leaves its last bundle installed, if that has its checksums and a version |
| CodePoints.CompareCodePoints | src/protocol/portable-path.ts:37-45 | the indexed loop computes the ranked lexicographic order |
| CodePoints.CompareIsByteOrder | src/protocol/portable-path.ts:35-45 | on well-formed UTF-16 the sign is that of the byte order of UTF-8 |
| CodePoints.CompareReverses | src/protocol/portable-path.ts:37-45 | antisymmetric, on ill-formed strings too |
| CodePoints.CompareEqual | src/protocol/portable-path.ts:37-45 | zero exactly for equal strings |
| CodePoints.CompareTransitive | src/protocol/portable-path.ts:37-45 | transitive |
| ImportPages.ImportInventoryPages | src/protocol/initial-import.ts:16-22 | the offset loop cuts the sorted entries into full pages and one last one |
| ImportPages.PagesPartition | src/protocol/initial-import.ts:14-22 | the pages hold every file exactly once, at most 2000 each |
| ImportPages.PagesAreDisjoint | src/protocol/initial-import.ts:14-22 | with distinct keys every page lies below every later one |
| NamespaceConflicts.BuildIndex | src/sync/namespace-conflicts.ts:8-20 | the index holds every path under its key and every ancestor folder |
| NamespaceConflicts.Lookup | src/sync/namespace-conflicts.ts:21-30 | nothing exactly when no indexed path conflicts, otherwise one that does |
| NamespaceConflicts.AssertPortablePaths | src/protocol/portable-path.ts:51-71 | accepts exactly the valid sets without a pairwise conflict |
| NamespaceConflicts.AboveIsFolder | src/protocol/portable-path.ts:51-71 | for accepted paths the loops' notion of a folder above is that one key begins with the other and a slash |
| PathSafety.AcceptedExactly | src/protocol/portable-path.ts:27-33 | a path is accepted exactly if it is printable, not too long, and leads by exactly its names to something below its folder, also on a system that takes backslashes for slashes |
| NamespaceConflicts.AddingIsSafeExactlyWithoutConflict | src/sync/namespace-conflicts.ts:3-8 | adding a valid path keeps a set accepted exactly when the lookup finds nothing |
| PathTags.SameNamesSameWire | src/encryption/path-tags.ts:27-29 | paths whose segments have equal portable forms share one wire form |
| PathTags.SameKeySameWire | src/encryption/path-tags.ts:50-53 | the cache key of a folder of an anchored path determines its wire form |
| PathTags.SameDepth | src/encryption/path-tags.ts:48-50 | without a clash the cache key of a folder tells its depth |
| PathTags.DepthDecides | src/encryption/path-tags.ts:48-53 | folders of one depth with one cache key have one wire form |
| PathTags.ExtendsParent | src/encryption/path-tags.ts:52-52 | a wire form extends its folder's |
| PathTagNames.WireTellsPaths | src/encryption/path-tags.ts:27-29 | two paths share a wire form if and only if their segments have equal portable forms, unless the hash collides on two messages of one level |
| PathTagNames.EqualNamesAreUnlinkable | src/encryption/path-tags.ts:27-29 | equal names in different folders are signed differently, and share a tag exactly if the hash collides |
| PathTagNames.SignedIsEngine | src/encryption/path-tags.ts:39-43 | a signature cut to 16 bytes in base32 is such a hash: 26 characters, equal exactly if those bytes are |
| PathTags.RememberKeeps | src/encryption/path-tags.ts:61-64 | the cache never exceeds 4096 folders and holds true entries for folders of the given paths, through eviction |
| PathTags.Tags.Wire | src/encryption/path-tags.ts:45-59 | the loop on any cache, with other calls changing it at every wait: what it computes, that the cache stays bounded, and for paths without a clash the uncached form, refused when too long |
| PathTags.AcceptedPathsAreAnchored | src/protocol/portable-path.ts:27-33 | no path that sync accepts begins with an empty segment and holds a folder behind it |
| PathTags.CacheShowsForHiddenFolders | src/encryption/path-tags.ts:48-56 | each path with an empty first segment and a folder behind it gets a wrong form after one earlier call |
| PathTagRuns.SeparateCallsAreRight | src/encryption/path-tags.ts:45-64 | in every run of interleaved calls for paths without a clash each finished call has its uncached form, and the cache at most 4096 folders |
| PathTagRuns.CacheIsInvisibleExactly | src/encryption/path-tags.ts:45-64 | every call of every run gets its uncached form if and only if no two of the paths clash |
| PathTagRuns.HarmlessExactly | src/encryption/path-tags.ts:46-50 | which paths clash with no other, exactly |
| PathTagRuns.AcceptedPathsAreSeparate | src/protocol/portable-path.ts:27-33 | paths that sync accepts never clash |
| PathTagRuns.WireAll | src/encryption/path-tags.ts:45-64 | calls one after another from the empty cache: at most 4096 folders, and without a clash each returns its uncached form |
| PathTagRuns.HiddenSpoilsAnchored | src/encryption/path-tags.ts:48-56 | a call for a path with an empty first segment is right by itself, and spoils a later call for a path in its next folder |
| PathTags.WireLength | src/encryption/path-tags.ts:39-43 | the exact length of a wire form |
| PathTags.LimitsAgree | src/encryption/path-tags.ts:20-25 | when the check before encryption and the refusal agree, exactly |
| PathTags.FolderNotesOverflow | src/encryption/path-tags.ts:20-25 | a path on which they do not |
| Base32.PushHolds | src/protocol/encrypted-path.ts:13-13 | a byte shifted into the wrapping 32-bit buffer stands behind the pending bits |
| Base32.Take | src/protocol/encrypted-path.ts:14-14 | the emitted character is that of the five oldest pending bits |
| Base32.EncodeBase32 | src/protocol/encrypted-path.ts:10-17 | equals section 6 of RFC 4648 without padding for every byte sequence |
| Base32.Base32IsInjective | src/protocol/encrypted-path.ts:10-17 | different bytes have different encodings |
| Base32.Base32Length | src/encryption/path-tags.ts:17-18 | length ceil(8n/5) |
| Base64Url.EncodeBase64Url | src/encryption/encoding.ts:2-8 | chunking, replacing and stripping give section 5 of RFC 4648 without padding |
| Base64Url.ValidateBase64Url | src/encryption/encoding.ts:10-18 | the checks as the source makes them, and the length |
| Base64Url.AcceptsExactlyCanonical | src/encryption/encoding.ts:10-18 | validation accepts precisely the canonical encodings within the limit |
| Base64Url.ValidIsCanonical | src/encryption/encoding.ts:20-26 | an accepted text is the encoding of what it decodes to |
| Base64Url.EncodingIsValid | src/encryption/encoding.ts:2-26 | an encoding within the limit is accepted and decodes to its bytes |
| Base64Url.DecodeBase64Url | src/encryption/encoding.ts:20-26 | the decoder with its copying loop |
| Base64Url.RoundTrip | src/encryption/encoding.ts:2-26 | decoding undoes encoding |
| BucketClear.ReadKeys | src/cloudflare/server-reset/server-delete-worker.js:13-33 | the Worker reads exactly the bodies within its limit that are acceptable arrays of keys, however they arrive in parts |
| BucketClear.NextBatch | src/cloudflare/server-reset/reset-objects.ts:20-27 | the running count is the length of the JSON body; a batch is as long as the limits allow |
| BucketClear.BatchIsAcceptable | src/cloudflare/server-reset/reset-objects.ts:20-28 | every batch of a page is one that the Worker accepts |
| BucketClear.Bucket.ClearPage | src/cloudflare/server-reset/reset-objects.ts:19-32 | the batches concatenate to the page |
| BucketClear.Bucket.Clear | src/cloudflare/server-reset/reset-objects.ts:3-34 | it ends, with an empty bucket if no call fails and nothing is added, and never reports an empty bucket that is not |
| JsonText.StringReads | src/encryption/notification-keys.ts:54-54 | every string, unpaired surrogates included, reads back from its JSON literal |
| JsonText.DisplayReads | src/encryption/notification-keys.ts:54-54 | a display reads back from its JSON text |
| JsonText.DisplayBytesCount | src/encryption/notification-keys.ts:54-54 | the count that the loop compares with 1024 is the length of that text in UTF-8 |
| JsonText.ArrayReads | src/cloudflare/server-reset/server-delete-worker.js:25-31 | an array of keys reads back from its JSON text |
| JsonText.BatchArrives | src/cloudflare/server-reset/reset-objects.ts:20-28 | the text of every batch is within the Worker's limit and reads back as its keys |
| JsonText.ArrayBytesCount | src/cloudflare/server-reset/reset-objects.ts:20-27 | the length that batches are cut by is that of the JSON body |
| JsonText.Utf8BytesCount | src/encryption/notification-keys.ts:9-20 | the byte counts are those of the UTF-8 encoding, replacement characters included |
| NotificationDisplay.TrimDisplay | src/encryption/notification-keys.ts:9-20 | the longest prefix that leaves room for the ellipsis; when it stays within the budget |
| NotificationDisplay.BuildDisplay | src/encryption/notification-keys.ts:52-54 | shortening ends for every input within 1024 bytes, with the longest title that fits |
| NotificationDisplay.Notifications.Seal | src/encryption/notification-keys.ts:55-68 | a remembered envelope is used again and only a missing one made; it opens to the given display; which envelopes are remembered afterwards, and in which order |

## Left out

- Cryptography, HTTP, OAuth, and Cloudflare's REST details: an abstract provider, hashes and ciphers take their place.
- SQL as a language: tables are maps and sequences, and a multi-statement query is one atomic step; text is modelled for the backup's printer and reader and for the restore's statements.
- JSON text of records and manifests: they are values, so compare-and-set compares values where the source compares texts. A value comparison succeeds more often, which only makes the fence theorems stronger. Operator texts are kept apart from client texts, because Python prints JSON differently.
- Unicode normalization and lower case inside `portablePathKey`: a function of which `Paths.IsPortableForm` says what is used.
- Strings in the SQL, restore and path models are sequences of Unicode scalar values, so unpaired surrogates do not occur there; `CodePoints` works on all unit sequences, `JsonBytes` on all code points.
- Numbers.RoundIsNearest: a numeral is rounded from all of its digits, as engines do; ECMA-262 lets an implementation ignore digits behind the twentieth, of which `String` never prints any. Minus zero is the integer 0.
- Numbers.NumberTextDenotes: the printed digits are searched from the fewest on, as ECMA-262 asks, but that no shorter text reads as the number is not proved.
- UpgradeExport.Server.DumpDatabase: a key is its place in scan order, not its columns; paused tables are a hypothesis here, which `UpgradeRun` proves for every run. Other attempts may do anything that keeps the promise of the saved progress, which every attempt is shown to do.
- PathTagRuns.CacheIsInvisibleExactly: it speaks of wire forms before their length is checked; a wrong and a right form that are both too long are refused alike.
- UpgradePause.EpochStays: a freeze writes a creation time that no earlier freeze of the same backup wrote; two within one millisecond are not distinguished by the source.
- UpgradePause.StepKeeps: a migration event needs a complete backup, which `UpgradeAttempt.Attempt.UpgradeDatabase` proves of the code that sends it; write guards are removed only by the release and the migration.
- UpgradeAttempt.Attempt.UpgradeDatabase: pruning, file copies and page reads come between its requests and change nothing that it speaks of; they are in `BackupStore` and `UpgradeExport`. That only writers are at work besides is what the fence gives.
- BackupStore.Bucket.FinishArchive: the order of a manifest's files, reading the manifest back, and the final progress update are not modelled.
- BackupStore.PerformAll: operations run one after another, as the fence makes them; pruning beside a backup in progress is outside.
- RestoreSql.StatementReads: the reader knows the statements that a restore sends and no other SQL.
- RestoreRuns.Database.Restore: of a marker with this plan's hash only numbers in digits are read; `Number` takes other forms too, which nothing writes. `prepareRows`, `verifyRows`, the file copies and the publishing phase are not modelled; no restored row writes the marker key, which `prepareRows` filters.
- UpdateRecovery.RecoverDeployment: that the stored value is one text, parses, and names a well-formed owner is a parameter; the text of the diagnostics is not modelled.
- ServerDeletion.Client.CheckFence: of the row only a pending helper upload is kept; which settled or foreign records block is in `FenceRecords.DeletionMayReplace`.
- ServerDeletion.Client.Attempt: creation dates, names and other Workers' bindings are not modelled, nor removal of resources by anyone else; the fence row shows only what matters for the helper upload, its compare-and-set is in `FenceProtocol`.
- PluginInstall.Lives: a failed adapter call that does not stop the process is not modelled; the opening `clearStaging` of a later install could then drop a committed journal.
- Migration.Server.Upgrade: the SQL of a migration, and the write guards around it, are one atomic effect.
- `ensureWorkersSubdomain`, `inspectDeploymentDatabase`, `completePublishedDeployment` beyond its fenced calls, manifest decoding, `prepareRows`, and the reset-worker client: single checks and plumbing.
- The Obsidian interface, the sync engine, reminders, Worker routes, the site and the Python archive tools.
