# OpsPulse verification

A Dafny model of the parts of OpsPulse whose correctness cannot be read off one function:
streaming filters, the restore and backup state machines with their audit trail, lexical path
algebra, the 1Password backup protocol, the parallel backup pool, the health report, and the
loops of bootstrap, migration plan, apply and shell profile. `dafny verify dfyconfig.toml`
checks everything.

## How it is organised

| files | topic |
|---|---|
| `Bytes`, `TitleFilter` | the terminal title filter: a byte automaton, the bulk-scanning writer that refines it, and an independent description of what stays visible |
| `LineWriters`, `SharedConsole` | the two line-prefix writers, and several of them on one mutex |
| `GoPath`, `PathUtil`, `PackagePaths`, `Remap` | Go's path functions over segment lists; confinement of package paths; path remapping; agreement of restore script and manifest search |
| `Outcomes`, `RestoreReport`, `Preflight`, `Restore`, `RestoreSteps` | a restore up to its container steps: vocabulary and methods |
| `RestoreChecks`, `RestoreLaws` | what was checked is what is used; report, error and history tell the same story |
| `RestoreRun`, `RestoreRunLaws`, `RestoreExit`, `RestoreExample` | a whole run with its audit row, its laws, its exit code, and one run in full |
| `BackupAudit` | the audit trail of backups and of the container backup |
| `Names`, `OnePassword` | the 1Password backup, one run and any sequence of runs |
| `Pool` | the backup pool, every interleaving |
| `Splitting`, `Health`, `HealthProbe`, `HealthReport`, `HealthTargets`, `Ports` | the health probe and its report: what is printed, how it is read, and that the report says what was seen |
| `Risks`, `HostRisks`, `Apply` | the risks of a migration, and the gate and loop of its apply step |
| `Bootstrap`, `JobNames`, `Profile` | the remaining loops |
| `Wrappers`, `Text`, `Sequences`, `Substrings` | shared vocabulary |

The remote side is a `Remote` or `Host` whose answers are an arbitrary function of everything
executed before; the audit table, the vault, the migrator and the fleet are arbitrary in the same
way. The one assumption on executors is the contract of the two executors in the repository: an
error exactly when there was no success (internal/executor/ssh.go:316-345,
internal/executor/local.go:97-119). Methods are proved against functions or relations over
histories; the lemmas beside them are about those, for every history.

## Where the code and its comments differ

Each of these is a lemma with a concrete input or an exact condition, on the code as it is.

- A title directly behind a held-back ESC passes the filter (`TitleFilter.TitleLeaks`,
  `TitleFilter.TitleRemovedIff`); `Flush` leaves the state, so it is taken as the last call.
- Exit code 3 is not reserved for an audit gap. A failed or partial restore exits with 3 when its
  error comes from a secret, the snapshot listing, the preview, the file restore, the generic start
  or the database import, and that one failed with 3 (`RestoreExit.ExitThreeIff`,
  `RestoreExit.FilesExitWithThree`). The errors of a volume import and of the Compose start are
  formatted anew and lose their code, so there a 3 becomes a 1 (`RestoreExample.VolumeExitsWithThree`).
- The dump of a package is checked under its path and imported from the trimmed path; they differ
  when the dump's name ends in a blank or a relative target path begins with one
  (`RestoreChecks.DumpUsesCheckedIff`).
- Container names are cleaned like paths before the preflight looks for them, but used as they are:
  a database container "a/" is imported into without having been looked for
  (`RestoreChecks.ContainerIsCheckedIff`, `RestoreChecks.ContainerNotChecked`). Names that Docker
  accepts are not affected (`RestoreChecks.DockerNameIsChecked`).
- The manifest search ignores the remap rules of the job (`Remap.RestoreEndToEnd`), a rule for
  `/` matches only `/` (`Remap.RootMatch`), and rules whose raw keys clean to the same key depend on
  map order (`Remap.OrderIrrelevantIff`, `Remap.OrderMatters`).
- A container backup that fails early does not report a failed closing write
  (`BackupAudit.GapReportedIff`, `BackupAudit.EarlyGapInvisible`), and in untracked mode does not try
  to leave a row (`BackupAudit.RunContainer`).
- A readable but empty key file replaces the key in the 1Password backup (`OnePassword.KeptKey`,
  `OnePassword.EmptyFileReplacesKey`), and the key of a listed server whose key path was cleared is
  dropped although the report speaks of removed servers (`OnePassword.ListedYetDropped`).
- A host without curl is reported as a broken service, not as an unconfirmed one: the verdict is
  looked for one field behind the place where the probe puts "tool-missing"
  (`HealthReport.MissingCurlIsBroken`).
- Two services can still run as one job: three of a project, a plain container named like a project,
  or two projects that differ by blanks (`Apply.ShareJobIff`).
- Sanitized job names can hold `..` and have no length limit (`JobNames.DotsRemainIff`,
  `JobNames.AcceptedIff`, `JobNames.TooLong`).
- Updating a profile twice differs from updating it once exactly when one of the two markers is
  missing or the first end marker comes first (`Profile.IdempotentIff`,
  `Profile.EndBehindBeginIsNotEnough`).

## Model

| member | source | states |
|---|---|---|
| `TitleFilter.TitleFilterWriter.Write` | cmd/opspulse/ssh.go:395-485 | the bulk-scanning loop writes what the byte automaton writes for the same input and ends in its state |
| `TitleFilter.TitleFilterWriter.Flush` | cmd/opspulse/ssh.go:487-504 | writes what is held back, with line ends turned into CR LF, and keeps the state |
| `TitleFilter.ChunkingInvisible` | cmd/opspulse/ssh.go:395-485 | any chunking of a stream gives the output and the state of the stream in one piece |
| `TitleFilter.ReachablePreserved` | cmd/opspulse/ssh.go:399-452 | what `pending` may hold in each of the five states, kept by every byte |
| `TitleFilter.TranscriptIsVisible` | cmd/opspulse/ssh.go:395-504 | automaton plus `Flush` leave exactly the bytes outside titles, a description by recursion on the text that knows no state |
| `TitleFilter.SessionOutput` | cmd/opspulse/ssh.go:399-504 | in a whole session every LF is directly behind a CR, and without CRs the output is a subsequence of the input |
| `TitleFilter.CrlfFixesReturned` | cmd/opspulse/ssh.go:399-411 | text that already has CR LF ends is left alone |
| `TitleFilter.TitleRemovedIff` | cmd/opspulse/ssh.go:427-452 | every title, with ESC pairs in its body and any of the three terminators, disappears exactly when nothing is held back in front of it; otherwise its ESC leaves with the held bytes and the rest is filtered like other text |
| `TitleFilter.TitleShown` | cmd/opspulse/ssh.go:427-452 | a title without ESC in its body behind held bytes is then written whole |
| `TitleFilter.Leak` | cmd/opspulse/ssh.go:427-504 | such a title in one line passes a whole session unchanged, whatever bytes were held back |
| `TitleFilter.TitleInvisibleInSession` | cmd/opspulse/ssh.go:395-504 | after a stretch that ends in Normal every title leaves no trace in the rest of the session |
| `TitleFilter.TitleLeaks` | cmd/opspulse/ssh.go:427-452 | two inputs whose title passes unfiltered |
| `TitleFilter.Session` | cmd/opspulse/ssh.go:395-504 | chunks through `Write`, then `Flush`: the visible bytes with CR LF ends |
| `LineWriters.PrefixedWriter.Write` | internal/executor/logger.go:93-125 | whatever was written before, the lines out are the prefixed complete lines of the whole stream, and the buffer never holds a newline |
| `LineWriters.PrefixedSession` | internal/executor/logger.go:93-142 | however a stream is cut, the output is prefix and line for each of its lines, the unfinished one included |
| `LineWriters.FeedConcat` | internal/executor/logger.go:93-125 | splitting a stream into lines does not depend on how it is cut |
| `LineWriters.SplitUnique` | internal/executor/logger.go:93-142 | there is only one way to write a stream as lines and a rest without newline |
| `LineWriters.LinePrefixWriter.Write` | cmd/opspulse/exec.go:160-173 | byte by byte: each newline sends one prefixed line to the console |
| `LineWriters.LinePrefixWriter.Flush` | cmd/opspulse/exec.go:175-187 | a rest leaves as one more prefixed line with a newline of its own |
| `LineWriters.LinePrefixSession` | cmd/opspulse/exec.go:160-187 | however a stream is cut, the console gets prefix and line for each of its lines, the last one closed |
| `SharedConsole.RunFaithful` | cmd/opspulse/exec.go:160-195 | an invariant of every interleaving of the writers on one mutex: what the console holds of each writer is what it would have printed alone so far |
| `SharedConsole.MergePreservesOrder` | cmd/opspulse/exec.go:160-195 | when all have finished, the console is an order-preserving merge of whole lines, each with the prefix its writer started with: of each writer exactly its own output in order, and of nobody else anything |
| `SharedConsole.CallsContiguous` | cmd/opspulse/exec.go:160-195 | the lines of one call stand together on the console |
| `GoPath.CleanIdempotent` | internal/docker/manifest.go:188-263 | the model of `path.Clean` is idempotent and keeps what a path parses to |
| `GoPath.AtOrBelowIsSegmentPrefix` | internal/backup/remap.go:55-60 | on clean absolute paths the boundary test on text is the prefix order on segments |
| `PathUtil.HasPathPrefixIsSegmentPrefix` | internal/pathutil/pathutil.go:14-24 | the prefix test holds exactly when the segments of one path begin with those of the other |
| `PackagePaths.AcceptedIff` | internal/docker/manifest.go:239-255 | a package path is accepted exactly when it is not blank, has no control character or drive prefix, and all its segments, cut at slashes and backslashes, are ordinary |
| `PackagePaths.AcceptedSegments` | internal/docker/manifest.go:239-255 | cut at slashes alone, an accepted path still has only ordinary segments |
| `PackagePaths.ResolveSucceeds` | internal/docker/manifest.go:188-198 | an accepted path always resolves; the second check never fires |
| `PackagePaths.ResolveUnderAbsoluteRoot` | internal/docker/manifest.go:188-198 | under an absolute root the result is cleaned root, slash and path, strictly below the root on a path boundary |
| `PackagePaths.ResolveInjective` | internal/docker/manifest.go:188-198 | under one root, different accepted paths never resolve to the same file |
| `PackagePaths.WithinRootIff` | internal/docker/manifest.go:257-263 | for clean absolute paths the relative-path test is the boundary prefix test |
| `Remap.NewPathRemapper` | internal/backup/remap.go:15-31 | the cleaned rules; the raw ones are visited in an arbitrary order and later ones win |
| `Remap.OrderIrrelevantIff` | internal/backup/remap.go:15-31 | the cleaned rules are independent of map order exactly when no two raw keys clean to one key with different targets |
| `Remap.ClashingRules` | internal/backup/remap.go:15-31 | two raw rules that clean to one key but not to one target always have two possible results |
| `Remap.OrderMatters` | internal/backup/remap.go:15-31 | such rules |
| `Remap.Remap` | internal/backup/remap.go:35-64 | an unmatched path comes back unchanged; otherwise the longest matching rule moves it, whatever the map order and the sort made of ties |
| `Remap.RemapDeterministic` | internal/backup/remap.go:35-64 | two results of the same call are equal: ties cannot matter |
| `Remap.RemapMeaning` | internal/backup/remap.go:15-64 | for any raw rules and an absolute path: unmatched means unchanged, and a match exchanges the leading segments, so the result lies under the rule's target |
| `Remap.RootMatch` | internal/backup/remap.go:56 | a rule for `/` matches `/` and nothing else |
| `Remap.MatchesIsPrefixTestIff` | internal/backup/remap.go:55-60 | on clean absolute paths the match test agrees with the prefix test of pathutil exactly unless the rule is for the root and the path is not |
| `Remap.ScriptMeetsLocator` | internal/backup/script.go:230-243 | the destination the restore script writes is where the locator looks for the remapped path |
| `Remap.UnmovedIff` | internal/backup/remap.go:35-64 | for any raw rules a clean absolute path is left alone exactly when each longest rule that matches it maps its key to itself |
| `Remap.RestoreEndToEnd` | internal/backup/script.go:209-259 | for any raw rules, absolute path and root the script writes to the restored place of the remapped path, and the search, which is not given the rules, meets it exactly when each longest matching rule maps its key to itself |
| `Remap.SearchMisses` | internal/backup/restore_runner.go:617-635 | a rule that moves a directory hides its manifest from the search |
| `Remap.RestoredInjective` | internal/backup/restore_runner.go:557-565 | different clean absolute paths are restored to different places |
| `Remap.RestoredInsideRoot` | internal/backup/restore_runner.go:557-565 | under an absolute root every restored path lies at or below that root |
| `RestoreReport.RestoreResult.constructor` | internal/backup/restore_steps.go:76-87 | a new report has all four steps, skipped |
| `RestoreReport.RestoreResult.BlockSteps` | internal/backup/restore_steps.go:148-152 | the named steps are blocked, the others untouched |
| `RestoreReport.RestoreResult.AggregateStatus` | internal/backup/restore_steps.go:160-173 | failed files fail the run; any failed or blocked step makes it partial |
| `Preflight.Parse` | internal/backup/restore_preflight.go:137-171 | a report of problems and containers, exactly for a complete output |
| `Preflight.Detect` | internal/backup/restore_preflight.go:215-244 | the message of each conflict with a listed container once, nothing else, in byte order |
| `Preflight.TruncatedNeverPasses` | internal/backup/restore_preflight.go:137-209 | output without its end mark never passes |
| `Preflight.PassMeansClear` | internal/backup/restore_preflight.go:175-244 | a passed check had no problem line and no unreadable line, and on another machine no listed container is in the way |
| `Restore.DedupMeaning` | internal/backup/container_runner.go:477-492 | the deduplicated list holds exactly the cleaned non-blank entries |
| `Restore.DedupDistinct` | internal/backup/container_runner.go:477-492 | and none of them twice |
| `Restore.ChoiceMeaning` | internal/backup/restore_runner.go:660-682 | the first package whose app is the job or the alias is chosen, and none only if there is none |
| `RestoreSteps.FindPackages` | internal/backup/restore_runner.go:617-658 | every place a manifest may lie in is read once, in order, and every usable manifest is found |
| `RestoreSteps.ImportVolumes` | internal/backup/restore_runner.go:806-830 | volumes are imported in manifest order up to the first failure, and reported so |
| `RestoreSteps.ExecutePlan` | internal/backup/restore_runner.go:806-867 | volumes, Compose, database: a successful stretch of the plan, or one that ends in the reported failure, with exactly the error that belongs to it |
| `RestoreSteps.DriveManifest` | internal/backup/restore_runner.go:718-867 | the story of a manifest-driven restore: what was executed, what is reported, and which error is returned |
| `RestoreSteps.ImportRestoredDatabase` | internal/backup/restore_runner.go:888-948 | the five outcomes of the database step |
| `RestoreSteps.StartWithoutManifest` | internal/backup/restore_runner.go:954-1016 | one generic start command, and what it means for the report |
| `RestoreSteps.RunPostRestoreSteps` | internal/backup/restore_runner.go:572-596 | policy and scenario decide whether anything is started |
| `RestoreChecks.ValidManifestResolves` | internal/docker/manifest.go:122-214 | in a validated manifest every archive and dump resolves, so the two path errors of the runner cannot occur |
| `RestoreChecks.DumpAlwaysImported` | internal/backup/restore_runner.go:911-926 | in a validated manifest a declared dump always has an import command |
| `RestoreChecks.ImportsUseChecked` | internal/backup/restore_runner.go:739-830 | the archives imported are the archives preflighted, in order |
| `RestoreChecks.DumpUsesCheckedIff` | internal/backup/restore_runner.go:754-764 | for any package root the dump imported is the dump preflighted exactly when the rendered path neither begins nor ends in a blank |
| `RestoreChecks.CheckedDumpNotUsed` | internal/docker/dump.go:57-74 | a valid manifest for which they differ by its dump |
| `RestoreChecks.CheckedDumpNotUsedUnderBlank` | internal/docker/dump.go:57-74 | one for which they differ by the target path |
| `RestoreChecks.ContainerIsCheckedIff` | internal/backup/restore_runner.go:775-795 | the container a dump goes into is one the probe looks for exactly when one of the names asked for cleans to it |
| `RestoreChecks.SurvivingNameIsChecked` | internal/backup/restore_runner.go:775-795 | a container whose own name is left alone by path cleaning is looked for |
| `RestoreChecks.DockerNameIsChecked` | internal/backup/restore_runner.go:775-795 | so is every container under a name that Docker accepts |
| `RestoreChecks.ContainerNotChecked` | internal/backup/container_runner.go:477-492 | a valid manifest that imports into a container nobody looked for |
| `RestoreLaws.PostStoryAgrees` | internal/backup/restore_runner.go:572-1016 | after a file restore: a step is failed or blocked, and the aggregate partial, exactly when there is an error; a later step succeeds only on top of the earlier ones |
| `RestoreLaws.BlockedIff` | internal/backup/restore_runner.go:797-804 | the error says that the preflight blocked the restore exactly when the preflight did |
| `RestoreLaws.StoryMutations` | internal/backup/restore_runner.go:735-867 | what is mutated is a prefix of the plan, and nothing unless the preflight ran before it and passed |
| `RestoreLaws.PostStoryMutations` | internal/backup/restore_runner.go:572-1016 | whatever drives the container steps, the container state is mutated only as that driver allows, and completely when there is no error |
| `RestoreRun.Begin` | internal/backup/restore_runner.go:139-149 | a restore goes on only with a row, with an allowed gap, or without a recorder |
| `RestoreRun.Prepare` | internal/backup/restore_runner.go:156-205 | the validation asks the remote side for the snapshot list and nothing else, and admits exactly the requests that pass every check |
| `RestoreRun.FailRun` | internal/backup/restore_runner.go:428-466 | a refused restore: status, stage, report, row and error |
| `RestoreRun.RestoreEverything` | internal/backup/restore_runner.go:306-369 | files, then container steps; status and stage follow from the report |
| `RestoreRun.Conclude` | internal/backup/restore_runner.go:371-420 | the closing write and the error it leads to |
| `RestoreRun.Run` | internal/backup/restore_runner.go:100-421 | nothing remote without row, allowance or recorder; on return the row holds the outcome or its closing write failed; the result is consistent with everything answered |
| `RestoreRunLaws.AttemptedConsistent` | internal/backup/restore_runner.go:232-369 | whatever is answered, status, stage and report belong to how the run went |
| `RestoreRunLaws.OutcomesAgree` | internal/backup/restore_runner.go:279-420 | error, status, stage, untracked flag and report agree, in both directions |
| `RestoreRunLaws.UntrackedIsNoFailure` | internal/backup/restore_runner.go:379-420 | the unaudited-success error is never that of a failed or partial run, and when exactly each audit error is returned |
| `RestoreRunLaws.CommandAddsNothing` | cmd/opspulse/restore.go:159-171 | the fallbacks of the command behind a nil error never fire |
| `RestoreRunLaws.RunMutations` | internal/backup/restore_runner.go:100-421 | no container state is touched unless the files were restored, and then as in the post-restore phase |
| `RestoreExit.ExitCodeIs` | cmd/opspulse/main.go:167-186 | the exit code of every attempt that returns an error: 3 for an audit gap, else that of the secret, listing or last command whose error keeps its cause, else 1 |
| `RestoreExit.ExitThreeIff` | internal/backup/restore_runner.go:806-948 | a failed or partial run exits with 3 exactly when a secret, the listing, the preview, the file restore, the generic start or the database import ended it with 3 |
| `RestoreExit.FailedRunExitsLikeUntracked` | cmd/opspulse/main.go:167-186 | an audited run whose file restore exits with 3 exits with 3 |
| `RestoreExit.FilesExitWithThree` | internal/backup/restore_runner.go:306-336 | such a run from its row to its error: not flagged as unaudited, and the exit code is that of an unaudited success |
| `RestoreExit.FilesExitExample` | internal/backup/restore_runner.go:306-336 | one such run |
| `RestoreExit.FailedVolumeExitsPlainly` | internal/backup/restore_runner.go:817-830 | a partial run whose first volume import exits with 3 exits with 1 |
| `RestoreExample.VolumeExitsWithThree` | internal/backup/restore_runner.go:617-830 | such a run in full, from the search for its package to the import |
| `BackupAudit.BeginRun` | internal/backup/runner.go:154-182 | fails closed: a run goes on only with a row, with an allowed gap, or without a recorder |
| `BackupAudit.FinalizeRun` | internal/backup/runner.go:286-361 | status, row, flag and error at the end of a run |
| `BackupAudit.Run` | internal/backup/runner.go:115-284 | at most one backup command, only after the row; the row holds the outcome unless its closing write failed |
| `BackupAudit.RunContainer` | internal/backup/container_runner.go:79-445 | what was executed at every exit: the artifacts in order up to the first failure, the snapshot only when all were made, and last the removal of scratch files exactly when an archive or dump was registered; every exit closes the row it created |
| `BackupAudit.SnapshotIsComplete` | internal/backup/container_runner.go:193-445 | a snapshot is attempted only with every artifact made well, in order |
| `BackupAudit.FinishedRunSound` | internal/backup/runner.go:286-361 | when the untracked error is returned, and that a clean return means success |
| `BackupAudit.GapReportedIff` | internal/backup/container_runner.go:135-145 | a failed closing write of a container backup is reported exactly when the snapshot was attempted and succeeded or was canceled |
| `BackupAudit.EarlyGapInvisible` | internal/backup/container_runner.go:135-145 | two runs with an early failure, one leaving a row that says running, whose callers are told the same |
| `OnePassword.ReadLocalKeys` | cmd/opspulse/onepassword_inventory.go:171-192 | which keys are read and which servers are reported unreadable |
| `OnePassword.KeyReadable` | cmd/opspulse/onepassword_inventory.go:171-192 | a name has a local key exactly when a server of that name names a readable file |
| `OnePassword.InheritMissingKeys` | cmd/opspulse/onepassword_backup.go:183-214 | the merged keys, and the exact, sorted split of the old ones into kept and dropped |
| `OnePassword.KeptKey` | cmd/opspulse/onepassword_backup.go:183-214 | a non-empty key of a server listed with a key path is kept when no file for this name is readable and is that of the file otherwise; it stays known exactly unless that file is empty |
| `OnePassword.DroppedIff` | cmd/opspulse/onepassword_backup.go:203-213 | exactly which old keys leave the document |
| `OnePassword.ReadPrevious` | cmd/opspulse/onepassword_backup.go:141-163 | absent and empty items are nothing; failed and unparsable reads are fatal |
| `OnePassword.WriteItem` | cmd/opspulse/onepassword_backup.go:76-94 | edit, and create only when the edit finds no item |
| `OnePassword.Rollback` | cmd/opspulse/onepassword_backup.go:224-242 | the previous bytes are written back, if there are any |
| `OnePassword.BackupMachine` | cmd/opspulse/onepassword_backup.go:248-295 | a bad pre-read leaves the item untouched; success means the item is the payload with the merged keys; a faithful rollback restores the old bytes |
| `OnePassword.KeySurvives` | cmd/opspulse/onepassword_backup.go:248-295 | over any sequence of backups a key is held as last read by a verified one, however often its file was unreadable |
| `OnePassword.EmptyFileReplacesKey` | cmd/opspulse/onepassword_inventory.go:183-189 | a readable empty file replaces the key |
| `OnePassword.ListedYetDropped` | cmd/opspulse/onepassword_backup.go:203-213 | a listed server whose key is dropped |
| `OnePassword.CollectCredentials` | cmd/opspulse/onepassword_inventory.go:344-363 | which key and password a restore uses does not depend on map order |
| `OnePassword.FirstKeyIs` | cmd/opspulse/onepassword_inventory.go:337-363 | the key is the first non-empty one in the order of the backups |
| `OnePassword.FirstPasswordIs` | cmd/opspulse/onepassword_inventory.go:337-363 | the password is that of the first server of this name, in the first backup, that has one |
| `Pool.Limit` | internal/backup/pool.go:110-117 | between one and the number of jobs |
| `Pool.StepInv` | internal/backup/pool.go:121-165 | every step of every goroutine keeps slots, mutex, records and counters right |
| `Pool.NeverMoreThanLimit` | internal/backup/pool.go:117-129 | under every interleaving at most `limit` jobs run |
| `Pool.NoDeadlock` | internal/backup/pool.go:121-167 | until all are done some goroutine can go on |
| `Pool.EveryRunEnds` | internal/backup/pool.go:121-167 | every run ends, after the same number of steps |
| `Pool.FinalBooks` | internal/backup/pool.go:131-169 | slot i holds job i's record; each job counts once; the untracked tally counts the untracked records |
| `Health.ParseHealthOutput` | internal/capability/health.go:454-514 | one verdict per target, in order, from the last line of each kind; every verdict agrees with its checks |
| `Health.HealthyIff` | internal/capability/health.go:454-691 | on arbitrary text a service is healthy exactly when Docker, container, ports, database and URL all have a positive last record |
| `Health.Unhealthy` | internal/capability/health.go:92-103 | the services without a healthy verdict, in order |
| `Health.Failed` | internal/capability/health.go:107-119 | the services with a failed check, in order |
| `Health.Unverified` | internal/capability/health.go:124-136 | the services with no failed check and an unconfirmed one, in order |
| `Health.UnhealthySplits` | internal/capability/health.go:92-136 | failed and unverified services are disjoint and together the unhealthy ones |
| `HealthProbe.ValidateTarget` | internal/capability/health.go:351-386 | which targets the script is built for |
| `HealthProbe.Reread` | internal/capability/health.go:464-491 | a printed line with no bar in its fields is read back field by field |
| `HealthReport.LinesReadInPlace` | internal/capability/health.go:240-338 | in the output for any number of targets every Docker, container, port, database and HTTP line is read back in place, for its own service |
| `HealthReport.ReportIsWhatWasSeen` | internal/capability/health.go:454-691 | for every service the report repeats what the probe saw, check by check and name included |
| `HealthReport.HealthyIffSeenSo` | internal/capability/health.go:454-691 | a service is reported healthy exactly when Docker, container, every port, the database and the URL were seen to be well |
| `HealthReport.HttpLineVerdict` | internal/capability/health.go:283-299 | for a target that is let through the HTTP line is read in place, whatever code it carries |
| `HealthReport.MissingCurlIsBroken` | internal/capability/health.go:660-691 | in the report on any output whose last HTTP line for a service is that of a host without curl, the service is broken |
| `HealthTargets.PlannedTargetsPrint` | internal/migration/health.go:39-80 | the targets of a plan that are let through have nothing in them that a line could not carry |
| `HealthTargets.PlanReportIsWhatWasSeen` | internal/migration/health.go:23-80 | so for any plan the report is what the probe saw |
| `Splitting.SplitJoin` | internal/capability/health.go:464-475 | splitting undoes joining |
| `Splitting.JoinSplit` | internal/docker/manifest.go:239-255 | and joining undoes splitting |
| `Splitting.AtoiDecimal` | internal/capability/health.go:476-479 | an index that is printed is read back |
| `Ports.PrintedThenRead` | internal/migration/verify.go:430-450 | a port mapping, printed, is read back as its host port and protocol |
| `Ports.HealthPorts` | internal/migration/health.go:69-80 | each fixed host port once, sorted |
| `Ports.ProbedAsPublished` | internal/docker/model.go:40-59 | from the source container to the probe: the port and protocol asked for are those published |
| `Bootstrap.Run` | internal/bootstrap/service.go:126-284 | every pair is recorded once, in order; counters add up; entries tell what was executed and how it went |
| `Bootstrap.TaskAt` | internal/bootstrap/service.go:126-156 | the order is lexicographic |
| `Bootstrap.SkippedIff` | internal/bootstrap/service.go:157-168 | with stop-on-error an entry is skipped exactly when an earlier one failed; otherwise none is |
| `Bootstrap.ResultCount` | internal/bootstrap/service.go:116-284 | successes and failures are servers times templates |
| `Bootstrap.WhatIsExecuted` | internal/bootstrap/service.go:156-281 | what is executed is a prefix of the pairs, all of them without stop-on-error, none in a dry run |
| `JobNames.SanitizeMeaning` | internal/migration/plan.go:375-388 | only permitted characters, no separator at an end |
| `JobNames.DotsRemainIff` | internal/migration/plan.go:386 | two dots in a row remain exactly where there were three |
| `JobNames.DotsRemain` | internal/migration/plan.go:373-388 | a name that keeps them |
| `JobNames.AcceptedIff` | internal/backup/model.go:78-105 | for any name: sanitized it is accepted by the backup engine exactly when the text between its separators, less its pairs of dots, has 1 to 64 characters and no three dots in a row |
| `JobNames.LettersAcceptedIff` | internal/migration/plan.go:375-388 | a name of n letters is accepted exactly up to 64 |
| `JobNames.TooLong` | internal/migration/plan.go:375-388 | a name that is not |
| `JobNames.Pad` | internal/migration/plan.go:357-359 | the `-x` loop ends, at the first free name |
| `JobNames.JobNames` | internal/migration/plan.go:339-364 | each name is the preferred one, or the first free one behind the second choice |
| `JobNames.NamesAreGood` | internal/migration/plan.go:335-364 | names are pairwise distinct, not empty and well-formed |
| `JobNames.NameAcceptedIff` | internal/migration/plan.go:339-364 | which of the names of a plan the backup engine accepts, second choices and padded names included |
| `Risks.RiskSummary.Add` | internal/migration/plan.go:905-919 | the buckets after adding a list of risks |
| `Risks.AddedMeaning` | internal/migration/plan.go:905-961 | buckets stay duplicate-free and correctly classified; nothing is forgotten or invented |
| `Risks.SummaryMeaning` | internal/migration/plan.go:905-961 | in the summary of a list each risk of the list is in the bucket of its severity and in no other, and nothing else is in any |
| `Risks.AddingAgain` | internal/migration/plan.go:905-919 | adding the same risks again changes nothing |
| `Apply.CollectBlockers` | cmd/opspulse/docker_apply.go:142-154 | the blocked services and the plan-wide blocker |
| `Apply.PlanWideIff` | cmd/opspulse/docker_apply.go:144-150 | a plan is blocked as a whole exactly by a blocker without service and with a detail |
| `Apply.BlankBlockerStops` | cmd/opspulse/docker_apply.go:142-204 | as long as no blocker without service lacks its detail, any such blocker stops the apply |
| `HostRisks.StoppedIffHost` | internal/migration/plan.go:760-900 | an apply is stopped as a whole exactly when something about one of the two hosts is a blocker: those risks all have a detail |
| `HostRisks.CheckTarget` | internal/migration/plan.go:797-862 | the risks of the target host, path by path |
| `HostRisks.ApplyPlan` | cmd/opspulse/docker_apply.go:131-204 | from the fresh reports to the migrations: a blocker on a host migrates nothing |
| `Apply.BlockedReason` | cmd/opspulse/docker_apply.go:151-153 | the reason given is that of the first blocker |
| `Apply.MigrateServices` | cmd/opspulse/docker_apply.go:344-373 | one outcome per service, in order, past failures |
| `Apply.Run` | cmd/opspulse/docker_apply.go:142-204 | the gate: a dry run, a plan-wide blocker or a refusal migrates nothing |
| `Apply.MigratedIff` | cmd/opspulse/docker_apply.go:142-204 | past the gate exactly the services no blocker names are migrated |
| `Apply.OutcomePerService` | cmd/opspulse/docker_apply.go:351-372 | each service has its outcome, skipped exactly if blocked |
| `Apply.VerifyProjectBatching` | internal/migration/verify.go:226-254 | one risk per crowded project, naming its least service, ordered by service, whatever the map order |
| `Apply.TogetherShareAlias` | internal/migration/verify.go:346-363 | two services of one project run under one alias |
| `Apply.TogetherIff` | internal/migration/verify.go:226-254 | the check lets two services of a project through exactly when it has three or more |
| `Apply.ShareJobIff` | internal/migration/verify.go:226-254 | over all services: two that are let through share an alias exactly when services under one alias are more than the two members of one project |
| `Apply.ThreeOfAProject` | internal/migration/verify.go:226-254 | three services of one project, two of which share a job |
| `Apply.ContainerLikeAProject` | internal/migration/verify.go:346-363 | a container named like a project: nothing is reported and both share a job |
| `Profile.ProfileFile.Update` | cmd/opspulse/completion.go:150-187 | what the profile becomes |
| `Profile.IdempotentIff` | cmd/opspulse/completion.go:158-173 | updating twice is updating once exactly with neither marker, or with the first end marker behind the first begin marker |
| `Profile.InstallTwiceIff` | cmd/opspulse/completion.go:96-173 | the same with the markers of the installer |
| `Profile.EndComesFirst` | cmd/opspulse/completion.go:158-173 | a profile that begins with an end marker is never one |
| `Profile.EndBehindBeginIsNotEnough` | cmd/opspulse/completion.go:158-173 | such a profile with an end marker behind its begin marker |
| `Profile.KeepsTheRest` | cmd/opspulse/completion.go:158-173 | text outside the block stays in place |
| `Profile.StrayBegin` | cmd/opspulse/completion.go:161-166 | with a stray begin marker the second update drops everything behind it |
| `Profile.StrayEnd` | cmd/opspulse/completion.go:161-172 | with an end marker in front every update appends one more block |
| `Profile.Seam` | cmd/opspulse/completion.go:103-109 | no marker straddles the place where a block begins |

## Left out

- Message texts, log files, durations, timestamps and terminal output other than what the stream writers write.
- Generated shell scripts: an action carries the arguments that reach its script, not its text; so do SSH, SFTP, Docker, restic and `op`. What the health probe sees is an input, what it prints is not.
- YAML and JSON codecs: responses carry decoded manifests; a marshalled 1Password backup is assumed to parse back to its keys.
- Unicode: text is ASCII where case folding or blanks matter.
- Which snapshot is the latest, and the asset and server stores: inputs of a restore.
- Executors that return no result at all: the model's answers always carry one.
- Escapes of unprintable characters in the messages of a preflight.
- Failing underlying writers in the stream filters: the sink accepts everything.
- Two items of the same title in the vault: an item is one value.
- The filter of the container backup that keeps its cleanup inside the scratch directory, and the saving of job and asset after a successful one.
- The dry-run branch of the pool and its summary table.
- Merging of server inventories, the restore from 1Password, and the conflict prompts.
- Building a plan, drift checks, target conflicts and plan adjustments: the apply step takes what they find as input, except the risks of the two hosts.
- VerifyProjectBatching: the detail of a risk is the project it is about, not the sentence shown.
- File locks, known_hosts, key generation and terminal detection.
