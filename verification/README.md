# Verified model of ChatWire's control logic

ChatWire supervises one Factorio server per process and shares files with other processes.
This project models the parts of it in which state, time, failures and interleaving meet,
and proves what they keep. Each component is modelled twice. A state machine (or, for the
codec, the configuration trees and the mod search, a set of functions) says what the code
does, branch by branch; its theorems are about every run, every input or every order of
iteration. Beside it the code appears in its own form, as classes, methods and loops over
maps, and each method's contract equates its effect with the step or function it belongs to.

| component | source | files |
|---|---|---|
| idempotent jobs | `webcontrol/jobs.go` | `JobModel`, `JobTheorems`, `JobRuns`, `JobKeys`, `JobStore` |
| lifecycle manager | `fact/lifecycle.go`, `fact/runtime_state.go` | `LifecycleModel`, `LifecycleTheorems`, `LifecycleRuns`, `LifecycleManager` |
| player database format | `fact/playerdb_codec.go` | `ByteStrings`, `Varint`, `PlayerCodec`, `PlayerEnvelope`, `PlayerCodecImpl` |
| player database sharing | `fact/playerDB.go` | `PlayerSyncModel`, `PlayerSyncTheorems`, `PlayerSyncRuns`, `PlayerSyncSharing`, `PlayerStore` |
| configuration files | `cfg/web_settings.go` | `Dotted`, `ConfigTree`, `ConfigFlatten`, `ConfigMerge`, `ConfigRuns`, `ConfigRaces`, `ConfigStore` |
| logins and sessions | `webapi/auth.go` | `AuthModel`, `AuthTheorems`, `AuthRuns`, `AuthStore` |
| mod updates | `modupdate/newUpdate.go`, `modupdate/util.go` | `Versions`, `ModDeps`, `ModResolve`, `ModPlans`, `ModUpdater` |
| built-in mods | `modupdate/builtin.go` | `BuiltinMods`, `BuiltinTheorems`, `BuiltinStore` |

`Wrappers`, `Sets` and `Text` hold what several components share.
`dafny verify dfyconfig.toml` checks everything.

How the environment enters: a clock reading, a drawn token, the outcome of a save, of a lock
or of a launch, the answer of the mod portal, the order in which a Go map is iterated and the
interleaving of goroutines and processes are parameters of steps, so a theorem holds for all
of them. Every section that the program runs under a mutex, or between two observable
effects, is one step; what it takes along from before a mutex, such as the copy of the
settings that a write merges later, is taken by a step of its own. A crash may come between
any two steps.

## Where the code does not keep what one would expect

Each of these is proved with its exact condition, and where it helps with a concrete case.

- The player encoder writes a player with an empty name, which the decoder refuses:
  `PlayerCodec.PayloadRoundTrip`, `PlayerCodec.EmptyNameIsRefused`. No process puts such a
  player into a file that has none (`PlayerSyncRuns.FileStaysReadable`); but a database in the
  JSON format can carry one, and its first write in the binary format can then never be read:
  `PlayerSyncRuns.EmptyNameSticks`.
- An acceptance that is refused because the directory could not be synced leaves its file
  behind. After a restart a key leads to its accepted job exactly when the directory lists no
  such file of the key after the job's own: `JobKeys.RetryFindsItsJobIff`. A world in which it
  does, and a job that succeeded is denied to its client: `JobRuns.OrphanShadowsAcceptedJob`.
- Only a normal reload spares players with unsaved changes. A load for booting, which a live
  process makes again once its Discord guild is found, puts the file's level back over a
  marked one, and the next write saves it. A pending player survives a load exactly when the
  load is a normal one, the file does not have the player, or its record neither removes the
  player nor says anything new: `PlayerSyncRuns.LoadKeepsPendingIff`,
  `PlayerSyncRuns.BootLoadRevertsLevel`, `PlayerSyncRuns.BootLoadLosesChange`.
- A change that has reached the disk can be undone there by a process that did not make it.
  A record stays exactly as long as every later commit leaves the player out or has that very
  record (`PlayerSyncSharing.StaysOnDiskIff`); where no process has the player marked, it
  stays (`PlayerSyncSharing.UnmarkedStays`). But a process with an older mark of the player,
  a sighting say, skips the player in its reload, and its next write puts its whole record
  over the new one: `PlayerSyncSharing.ReloadedWriteKeepsIff`,
  `PlayerSyncSharing.OlderMarkUndoesChange`. So a ban set on one server is undone by
  another: `PlayerSyncSharing.BanIsUndone`.
- A player's change is marked under the trimmed name but stored under the name as it is, so
  for a name with a space at an end the next write misses the change, and removes from disk
  the trimmed name when memory does not know it: `PlayerSyncRuns.ChangeIsSavedIff`,
  `PlayerSyncRuns.SpacedNameDropsAnother`.
- A deleted player that was unknown is taken over as the file has it on the first load, and
  gets the identifier "0" on the second: `PlayerSyncRuns.LoadIsIdempotentIff`.
- `flatten` and `unflatten` are not inverse on dotted names, on empty inner objects and on an
  object under the empty name; `unflatten` panics, in some order of iteration, when one path
  extends another, which a hand-edited `null` in place of a group brings about:
  `ConfigFlatten.FlattenThenUnflatten`, `ConfigFlatten.UnflattenThenFlatten`,
  `ConfigRuns.NulledGroupFails`.
- `writeConfigMerged` and `rememberConfig` copy the settings before they take the mutex, and
  the callers share no other lock. A copy that is written after a newer one, or after a
  reload, counts its old values for changes: a write of a process that never changed a field
  undoes a web edit of it, against what `rememberConfig` promises
  (`ConfigRaces.LateWriteUndoesEdit`, `ConfigRaces.EditIsLost`), and an old value comes back
  over the one that was set and written (`ConfigRaces.OldCopyComesBack`). A field that is
  set between the two halves of a reload is remembered as if it had been loaded, and not
  written (`ConfigRaces.ReloadSwallowsChange`). The exact conditions:
  `ConfigRaces.LateWriteKeepsFieldIff` for one write, `ConfigRuns.DiskHoldsLatestIff` and
  `ConfigRaces.WebEditSurvivesIff` for runs. Processes that load, remember and write in
  order keep both promises: `ConfigRuns.DiskHoldsLatest`, `ConfigRaces.WebEditSurvives`.
- A write without a remembered baseline drops keys that are not settings of the program:
  `ConfigRuns.MergeKeepsKeysIff`.
- The search for mod updates accepts a required built-in mod by the game's version alone, the
  final check only when it is listed among the mods: `ModPlans.BuiltinsAgreeIff`. The `+` mark
  of a recommended dependency is understood for built-in mods only; elsewhere it stays in the
  name, so the portal is asked for a mod of that name and the whole search fails when the
  release comes into question at its turn, and is not affected by it when it does not:
  `ModDeps.RecommendationStaysInName`, `ModPlans.RecommendationFailsSearch`.
- Where a mod list names a mod twice, a switch changes the first entry and the validator
  reads the last: `BuiltinTheorems.EnablingKeepsValidIff`,
  `BuiltinTheorems.DisablingKeepsValidIff`.

## Model

| member | source | states |
|---|---|---|
| JobRuns.AtMostOnce | webcontrol/jobs.go:128-187 | over any run with crashes, power cuts, restarts and failed saves, the operation of one (actor, server, key) is invoked at most once |
| JobRuns.InvokedIsNeverRestarted | webcontrol/jobs.go:128-148 | once an operation was invoked, every later request with its key is answered from the record and changes nothing |
| JobRuns.OneWorker | webcontrol/jobs.go:140-187 | at most one worker exists; a job is admitted only when there is none, and leaves no outcome waiting to be saved |
| JobRuns.MemoryAgreesWithDisk | webcontrol/jobs.go:192-228 | memory and disk hold the same record of every job that is neither pending nor torn by a save that failed after its rename |
| JobRuns.CleanRuns | webcontrol/jobs.go:95-126 | when no save fails after its rename nothing is ever torn or orphaned, so the agreement holds of every job that is not pending |
| JobRuns.SuccessIsEarned | webcontrol/jobs.go:159-228 | a durable "succeeded" means that the operation returned without error or that its restart checkpoint was written first |
| JobKeys.RetryFindsItsJobIff | webcontrol/jobs.go:46-93 | after a restart, and as long as the process stays up, an accepted request finds its own job, exactly when the directory lists no orphan of its key after the job's file |
| JobKeys.AcceptedHereIsFound | webcontrol/jobs.go:150-158 | a process that accepted a job itself always finds it |
| JobKeys.LoadIndexesLast | webcontrol/jobs.go:46-93 | reading the directory to its end leads each key to its last file |
| JobRuns.AcceptedStays | webcontrol/jobs.go:150-158 | no later event replaces or forgets an accepted job |
| JobRuns.OrphanShadowsAcceptedJob | webcontrol/jobs.go:116-126 | a reachable world in which a succeeded job's client is told that its key belongs to another request |
| JobKeys.SharedRecordIff | webcontrol/jobs.go:128-136 | another request shares a request's record iff its actor, server or key contains a NUL |
| JobKeys.KeyIdentifiesRequest | webcontrol/jobs.go:128-136 | so with identifiers that passed `ValidID`, as all do, a record stands for one (actor, server, key) |
| JobTheorems.StepKeeps | webcontrol/jobs.go:46-228 | every step, a failed save, a crash and a failed recovery included, keeps the invariant of memory, disk and history |
| JobStore.Jobs.NewJobs | webcontrol/jobs.go:46-93 | the loading loop ends in the state of the recovery step, or with no store |
| JobStore.Jobs.Start | webcontrol/jobs.go:128-158 | the maps, the directory and the answer are those of the start step |
| JobStore.Jobs.Update | webcontrol/jobs.go:212-228 | memory follows the disk only when the save succeeds |
| JobStore.Jobs.Begin | webcontrol/jobs.go:170-174 | the operation is invoked exactly when its start was saved |
| JobStore.Jobs.Finish | webcontrol/jobs.go:174-210 | the record, the pending mark and the worker are those of the finish step, whatever the operation returned |
| JobStore.Jobs.Lookup | webcontrol/jobs.go:251-264 | finds the job of a key, and only for the same request |
| LifecycleRuns.AtMostOneServer | fact/lifecycle.go:845-906 | in every reachable state at most one server is alive, it is of the current generation, and none is when the phase is stopped |
| LifecycleRuns.LaunchFindsNoServer | fact/lifecycle.go:845-906 | the launcher is called only when none is alive, and only it adds one |
| LifecycleRuns.StoppingEndsInObservedExit | fact/lifecycle.go:999-1050 | the stopping phase is left only for the stopped one, with the process dead |
| LifecycleRuns.StaleNotificationsAreIgnored | fact/lifecycle.go:1160-1171 | a notification of another generation changes nothing but its channel |
| LifecycleRuns.PhaseChangesHaveCause | fact/lifecycle.go:1219-1289 | phase and readiness change only by the manager's own steps or by the current generation's notifications |
| LifecycleRuns.AnsweredExactlyOnce | fact/lifecycle.go:734-829 | a waiting request is answered once, exactly when the manager no longer holds it; when the manager has ended all are |
| LifecycleRuns.EndIsFinal | fact/lifecycle.go:217-266 | after its end the manager accepts nothing and changes no answer |
| LifecycleRuns.NoSnapshotIsLeftBehind | fact/lifecycle.go:533-547 | a held request has a staged map file iff it says so, and there is no other staged file |
| LifecycleRuns.PickTakesBest | fact/lifecycle.go:560-584 | a pick takes the earliest runnable request of highest priority and keeps the order of the rest |
| LifecycleRuns.AutoStartComesLast | fact/lifecycle.go:500-515 | an automatic start follows only a scan that found nothing runnable, and only where no server is alive |
| LifecycleRuns.StopSucceedsIffStopped | fact/lifecycle.go:935-997 | a stop succeeds iff the phase is stopped, and otherwise leaves it stopping |
| LifecycleRuns.FollowUpsRunWithoutServer | fact/lifecycle.go:760-807 | the work between a stop and a start, and the start, find no server |
| LifecycleRuns.StageGivesUpOnlyWhenLate | fact/lifecycle.go:999-1050 | a stage gives up only after its own timeout and after the allowance of the generation's last progress |
| LifecycleRuns.DeadlinesNeverMoveBack | fact/lifecycle.go:999-1021 | during a stage the deadline only grows, and only by a look at the progress |
| LifecycleRuns.OnlyOwnProgressExtends | fact/lifecycle.go:1003-1018 | every deadline is the stage's timeout or the allowance of progress observed from the current generation |
| LifecycleRuns.ObservedIsCurrent | fact/lifecycle.go:1080-1087 | progress is observed only from the current generation |
| LifecycleRuns.RecoveriesAreBoundedByUpdates | fact/lifecycle.go:908-933 | recovery restarts plus the armed and the pending flag never exceed the marked updates, through failed and interrupted boots |
| LifecycleRuns.RecoveryIsLastResort | fact/lifecycle.go:908-933 | over any run a recovery restart is queued only for a generation whose SoftMod has not answered since its start began, and only if an update was marked before its launch was completed |
| LifecycleTheorems.StepKeeps | fact/lifecycle.go:483-1394 | every step of the manager and of its environment keeps the invariant of processes, control, deadlines, requests and tokens |
| LifecycleManager.Manager.NextRequest | fact/lifecycle.go:560-584 | the scan loop picks the request of the pick step, or finds none |
| LifecycleManager.Manager.CancelPendingRequests | fact/lifecycle.go:533-547 | the loop answers what the end of the manager answers |
| LifecycleManager.Manager.FinalizeStopped | fact/lifecycle.go:1238-1289 | the fields after a stop, with the recovery turned back into a pending update |
| LifecycleManager.Manager.WaitForStop | fact/lifecycle.go:999-1050 | the wait, with anything interleaved, is a possible run that ends stopped or at the next stage |
| LifecycleManager.Manager.ExecuteStop | fact/lifecycle.go:935-997 | returns success iff the phase is stopped |
| LifecycleManager.Manager.ExecuteStart | fact/lifecycle.go:845-906 | the start is a possible run to the request's end |
| LifecycleManager.Manager.Execute | fact/lifecycle.go:734-829 | from a picked request to its answer, for every kind of request |
| LifecycleManager.Manager.RunRounds | fact/lifecycle.go:483-531 | the main loop is a possible run; when it has ended nothing is queued or staged and every waiting caller has its one answer |
| Varint.UvarintRoundTrip | fact/playerdb_codec.go:218-228 | an unsigned varint (LEB128, section 7.6 of DWARF 5) reads back, whatever follows it |
| Varint.UvarintAccepted | fact/playerdb_codec.go:218-228 | what the reader accepts, padded or not, is a value below 2^64 whose own encoding is no longer |
| Varint.ZigzagBijection | fact/playerdb_codec.go:230-240 | signed values map one to one to unsigned ones |
| ByteStrings.SortedUnique | fact/playerdb_codec.go:121-128 | a set of keys has one sorted listing, so the bytes do not depend on map order |
| PlayerCodec.PayloadRoundTrip | fact/playerdb_codec.go:258-336 | within the limits decoding gives the same players when no name is empty, and an error otherwise; the record guard never rejects an encoder's output |
| PlayerCodec.EmptyNameIsRefused | fact/playerdb_codec.go:280-286 | an empty name sorts first, and the decoder stops there |
| PlayerCodec.RecordsAreLong | fact/playerdb_codec.go:270-276 | records with a name take at least nine bytes each |
| PlayerCodec.AcceptedIsCanonicalizable | fact/playerdb_codec.go:258-336 | whatever is accepted re-encodes within the limits, no longer, to the same players |
| PlayerEnvelope.EncodeSucceedsIffFits | fact/playerdb_codec.go:116-169 | encoding succeeds exactly within the limits, and gives the sorted payload in its envelope |
| PlayerEnvelope.EnvelopeRoundTrip | fact/playerdb_codec.go:171-203 | the envelope opens to its payload |
| PlayerEnvelope.DatabaseRoundTrip | fact/playerdb_codec.go:116-203 | the whole file reads back as the same players when no name is empty, and is refused otherwise |
| PlayerEnvelope.AcceptedFileCanBeSaved | fact/playerdb_codec.go:171-203 | any file that loads can be saved again, in no larger a payload, and loads as the same |
| PlayerCodecImpl.SortedKeys | fact/playerdb_codec.go:121-128 | collecting the names in any order and sorting them gives the one sorted listing |
| PlayerCodecImpl.EncodeBinaryPlayerDatabase | fact/playerdb_codec.go:116-169 | the appending loop computes the encoding, or the first limit exceeded |
| PlayerCodecImpl.Reader.NextUvarint | fact/playerdb_codec.go:218-228 | the reader's value and offset, which stays in range |
| PlayerCodecImpl.Reader.NextString | fact/playerdb_codec.go:242-256 | a string and the offset past it, or the error with the offset in range |
| PlayerCodecImpl.DecodePlayerDBPayload | fact/playerdb_codec.go:258-336 | the reading loop computes the decoding, with every error, on every byte string |
| PlayerSyncRuns.OneWriter | fact/playerDB.go:549-588 | one process at most holds the file lock, and merges into what the file still holds |
| PlayerSyncRuns.DiskIsLastCommit | fact/playerDB.go:415-423 | each player on disk is that of the last committed snapshot which contained it |
| PlayerSyncRuns.FileStaysReadable | fact/playerDB.go:539-589 | whatever any process writes decodes again to the same players |
| PlayerSyncRuns.EmptyNameSticks | fact/playerdb_codec.go:84-114 | a file that does carry an empty name keeps it through a write and is refused from then on |
| PlayerSyncTheorems.NamesStayCanonical | fact/playerDB.go:62-71 | a file with lower-case names keeps them through any run |
| PlayerSyncRuns.MarksAreDischarged | fact/playerDB.go:405-413 | short of a crash, a mark disappears only after a commit of a snapshot taken later than it was set |
| PlayerSyncRuns.ChangesReachDisk | fact/playerDB.go:62-71 | a marked change stays in memory and marked until it is committed, over every interleaving in which its process neither changes that player again nor crashes nor finishes a load that overrides the player |
| PlayerSyncSharing.StaysOnDiskIff | fact/playerDB.go:539-589 | a record stays on disk through all of a run of any processes iff every commit leaves the player out or has that very record |
| PlayerSyncSharing.UnmarkedStays | fact/playerDB.go:384-423 | where no process has the player marked or on its way to the file, the record stays until someone marks the player |
| PlayerSyncSharing.ReloadedWriteKeepsIff | fact/playerDB.go:456-459 | a reload and a write leave a player on disk as it was iff the process had no mark of the player or the same record; otherwise its whole record replaces it |
| PlayerSyncSharing.OlderMarkUndoesChange | fact/playerDB.go:415-459 | in any world, a written change is replaced by the older record of another process that has the player marked |
| PlayerSyncSharing.BanIsUndone | fact/playerDB.go:277-319 | a run from a fresh start of two processes in which a ban that was on disk is undone by the other one's note of a sighting, and the next reload takes it from the process that had set it |
| PlayerSyncRuns.LoadKeepsPendingIff | fact/playerDB.go:456-459 | a load of any kind keeps a pending player iff it is normal, or the file lacks the player, or its record neither removes the player nor has a level, identifier, creation time, later sighting, more minutes or score to take over |
| PlayerSyncRuns.BootLoadRevertsLevel | fact/playerDB.go:426-459 | a change, a load for booting and a write leave the file's own level on disk, whatever the records |
| PlayerSyncRuns.BootLoadLosesChange | support/mainLoops_discord.go:56 | a run from a fresh start in which a marked change is lost so |
| PlayerSyncRuns.MarkFindsItsPlayer | fact/playerDB.go:62-71 | a change is marked under the stored name iff the name has no space at its ends |
| PlayerSyncRuns.QuietWriteSaves | fact/playerDB.go:539-589 | an undisturbed write puts every marked player on disk as in memory and clears the marks |
| PlayerSyncRuns.ChangeIsSavedIff | fact/playerDB.go:62-71 | the next write saves the change iff the name has no space at its ends or disk had it already; else it writes or removes another player |
| PlayerSyncRuns.SpacedNameDropsAnother | fact/playerDB.go:415-423 | after both processes have loaded and the other one has added "bob", a change of " bob" removes "bob" from disk |
| PlayerSyncRuns.LoadKeepsPending | fact/playerDB.go:456-459 | a normal reload never alters a player with a pending mark |
| PlayerSyncRuns.ReloadNeverLowers | fact/playerDB.go:277-319 | a normal reload forgets no player and lowers neither LastSeen nor Minutes |
| PlayerSyncRuns.FewBans | fact/playerDB.go:449-523 | a load writes at most six bans, and none while booting |
| PlayerSyncRuns.LoadSettlesEach | fact/playerDB.go:456-524 | for lower-case files a load decides each player by itself, in every mode |
| PlayerSyncRuns.LoadOrderDoesNotMatter | fact/playerDB.go:456-524 | so the order of map iteration does not matter |
| PlayerSyncRuns.LoadIsIdempotentIff | fact/playerDB.go:277-344 | loading the same file again changes nothing iff it has no deleted player that was unknown and whose identifier is not "0" |
| PlayerSyncRuns.LoadSeesOwnCommits | fact/playerDB.go:426-448 | a load finds of every player the process ever saved that record or a later one |
| PlayerSyncTheorems.StepKeeps | fact/playerDB.go:384-589 | every step of every process keeps the invariant of file, lock, snapshots and marks |
| PlayerStore.MergePlayerChanges | fact/playerDB.go:415-423 | the loop computes the merge: changed players replace, absent ones are removed, others stay |
| PlayerStore.Store.SnapshotPlayerChanges | fact/playerDB.go:384-403 | the loop takes the snapshot of the snapshot step |
| PlayerStore.Store.CompletePlayerChanges | fact/playerDB.go:405-413 | the loop clears exactly the marks whose version is still the one taken |
| PlayerStore.Store.MergeFile | fact/playerDB.go:456-528 | the loading loop updates the list, the changed names and the count of bans as the load step does |
| PlayerStore.Store.LoadPlayers | fact/playerDB.go:426-537 | the list after a load, with the names it changed marked besides the marks there were |
| PlayerStore.Store.WritePlayers | fact/playerDB.go:539-589 | with other processes and other changes in between, either the file takes what was marked when the write began and exactly the marks not set again are cleared, or nothing is written, every mark stays and the write is asked for again |
| Dotted.SplitJoin | cfg/web_settings.go:62-75 | joined dot-free names split back |
| ConfigFlatten.FlattenThenUnflatten | cfg/web_settings.go:49-76 | for every order of both iterations an object comes back iff it has no dotted name, no empty inner object and no object under the empty name |
| ConfigFlatten.UnflattenThenFlatten | cfg/web_settings.go:49-76 | in every order `unflatten` succeeds and nothing is lost iff no path extends another and none begins with a dot |
| ConfigFlatten.ConflictFails | cfg/web_settings.go:62-75 | where one path extends another some order fails the type assertion |
| ConfigFlatten.InsertFailsIff | cfg/web_settings.go:62-75 | an insertion fails iff a leaf lies on its way |
| ConfigRuns.DiskHoldsLatestIff | cfg/web_settings.go:122-160 | at every point of a run, with overlapping writes and reloads of several processes and a web editor, each field on disk is the latest of its edits and written changes, as a log alone determines it, iff no write of the run takes an unchanged copied value for changed or a changed one for unchanged where the disk has another |
| ConfigRuns.DiskHoldsLatest | cfg/web_settings.go:122-160 | so it is in every run in which no process sets or writes anything between loading and remembering, and no copy lands after a newer one or after a load |
| ConfigRuns.NoKeyIsDropped | cfg/web_settings.go:148-152 | no step drops a key of the file |
| ConfigRuns.BaselineIsLastSync | cfg/web_settings.go:112-160 | the remembered baseline is the copy last written or remembered, and each copy under way is what the settings were when it was made, however the flights overlap |
| ConfigRaces.LateWriteKeepsFieldIff | cfg/web_settings.go:122-160 | a write of a process that had not changed a field when it copied the settings leaves the field alone iff no other write or reload of the process has moved its baseline of the field since, or the disk has the copied value anyway |
| ConfigRaces.WebEditSurvivesIff | cfg/web_settings.go:109-111 | a web edit stays on disk at every point of a run iff no later edit gives another value and no write brings a copied value that is neither the baseline it meets nor the edited one |
| ConfigRaces.WebEditSurvives | cfg/web_settings.go:109-111 | with processes in order and no unwritten change of the field in settings or in copies, a web edit outlives all writes and reloads until the field is assigned or edited anew |
| ConfigRaces.OldCopyComesBack | cfg/web_settings.go:122-158 | from every initial world, a run in which a field that was set and written goes back on disk to the value of an older copy |
| ConfigRaces.LateWriteUndoesEdit | cfg/web_settings.go:109-158 | from every initial world, a run in which no field is ever assigned and yet a write undoes a web edit that its process has loaded |
| ConfigRaces.ReloadSwallowsChange | cfg/localCfg.go:163-188 | from every initial world, a run in which a field set during a reload is left out by the next write and the baseline hides it |
| ConfigRuns.EditsDoNotRace | cfg/web_settings.go:254-269 | an edit commits iff the file has the revision it was based on; of two based on one, only the first can change anything |
| ConfigRuns.MergeKeepsKeysIff | cfg/web_settings.go:137-152 | a write keeps every key iff there is a baseline or the settings have them all |
| ConfigRuns.MergedWriteIsSafeIff | cfg/web_settings.go:137-155 | a merged write is safe in every order iff the paths of settings and file do not extend one another and none begins with a dot |
| ConfigRuns.NulledGroupFails | cfg/web_settings.go:62-75 | a group replaced by `null` makes a write fail in some order |
| ConfigMerge.StepKeeps | cfg/web_settings.go:112-160 | every step, the unlocked copy and the locked merge apart, keeps settings, copies under way, baselines and file as the log says |
| ConfigMerge.WriteNeverPanics | cfg/web_settings.go:153-155 | with sound paths a write never panics and the file reads as what was merged |
| ConfigStore.Flatten | cfg/web_settings.go:49-61 | the recursive loop, in any order, adds exactly the leaves under their dotted keys |
| ConfigStore.UnflattenValues | cfg/web_settings.go:62-75 | the loop builds the object of some order of the keys, or panics as that order does |
| ConfigStore.Merge | cfg/web_settings.go:137-152 | the two loops compute the three-way merge |
| ConfigStore.Config.WriteConfigMerged | cfg/web_settings.go:122-160 | file and baseline after a write, a refusal and a panic, with no assumption on the file |
| AuthRuns.OneSessionPerGrantAndNonce | webapi/auth.go:113-145 | no two sessions were ever made from one login link or one nonce |
| AuthRuns.OnePendingGrantPerUser | webapi/auth.go:70-101 | a user has one pending link at most, and the tables keep their limits |
| AuthRuns.LinksAreSpaced | webapi/auth.go:70-101 | two links of one user are at least five seconds apart |
| AuthRuns.SessionsAreCurrent | webapi/auth.go:165-171 | a stored session has its user's current epoch and the newest authorization committed to it |
| AuthRuns.NoCommitAfterRevoke | webapi/auth.go:157-198 | a login or check whose user is revoked between its two steps, explicitly or by another check that was refused, fails and stores nothing, in every interleaving |
| AuthRuns.SessionsOnlyMoveForward | webapi/auth.go:146-183 | a session's times never go back, and a removed session is never recreated by a refresh |
| AuthRuns.CheckAnswersFromFreshAuthorization | webapi/auth.go:146-183 | a successful check answers from an authorization less than a minute old, or refreshed, within all session limits |
| AuthRuns.ExchangeUsesLiveGrant | webapi/auth.go:113-145 | a login uses up an unexpired link and nonce, for the link's user |
| AuthTheorems.StepKeeps | webapi/auth.go:42-203 | every step keeps the invariant of tables, flights and history |
| AuthStore.Retain | webapi/auth.go:42-69 | the pruning loop keeps exactly the entries that are to be kept |
| AuthStore.Store.PruneAll | webapi/auth.go:42-69 | all five tables after pruning |
| AuthStore.Store.Issue | webapi/auth.go:70-101 | the tables after an issue, and when a link is issued at all |
| AuthStore.Store.ExchangeFirst | webapi/auth.go:113-124 | what the first section of a login remembers |
| AuthStore.Store.ExchangeSecond | webapi/auth.go:129-145 | the tables and the answer of the second section |
| AuthStore.Store.CheckFirst | webapi/auth.go:146-154 | what the first section of a check remembers |
| AuthStore.Store.CheckSecond | webapi/auth.go:155-183 | the tables and the answer of the second section |
| AuthStore.Store.RevokeUser | webapi/auth.go:184-198 | the tables after a revocation |
| Versions.CheckIsOrder | modupdate/util.go:39-85 | each operator is the one it names in the total order of versions; the check fails iff a version is malformed or the operator unknown |
| Versions.BeforeIsTotalOrder | modupdate/util.go:51-68 | versions are totally ordered |
| Versions.VersionRoundTrip | modupdate/util.go:87-108 | printed versions of three numbers, or of two, read back |
| ModDeps.VersionedReadsBack | modupdate/newUpdate.go:520-559 | a dependency with any mark, operator and spacing reads back as written |
| ModDeps.UnversionedReadsBack | modupdate/newUpdate.go:520-559 | so does one without a version |
| ModDeps.RecommendationStaysInName | modupdate/newUpdate.go:520-559 | the `+` mark stays part of the name, with or without a version and in any spacing |
| ModPlans.PlansAreGood | modupdate/newUpdate.go:128-304 | a plan, at every depth of the search, has one download per name at most, each matching the game and pinned or newer than what is installed |
| ModPlans.ChosenIsNewest | modupdate/newUpdate.go:152-278 | the chosen release is the newest admissible one and the first of those; none is chosen iff none is admissible; a pin admits only itself |
| ModPlans.PlanCarriesChosen | modupdate/newUpdate.go:279-304 | a returned plan has, for every mod asked about whose chosen release differs from the installed one, a download not older than that release |
| ModPlans.UnheardOnlyHurtsInQuestion | modupdate/newUpdate.go:152-258 | a release that requires a mod nobody has heard of ends the search for its mod iff it comes into question at its turn; otherwise the choice is as if it asked for nothing |
| ModPlans.RecommendationFailsSearch | modupdate/newUpdate.go:231-244 | in any list of mods, any release with a `+` dependency in any place fails the whole search when it comes into question at its turn, and otherwise leaves the choice for its mod as it was |
| ModPlans.DepsAreMetIff | modupdate/newUpdate.go:195-273 | a release's dependencies are met iff each is optional, ruled out, a built-in that holds, or found |
| ModPlans.MergeKeepsNewest | modupdate/newUpdate.go:562-585 | a merge holds for each name one of the newest downloads offered |
| ModPlans.AddDownloadKeeps | modupdate/newUpdate.go:562-585 | merging one download keeps names unique and invents nothing |
| ModPlans.PlanReplaces | modupdate/newUpdate.go:477-486 | planned versions replace installed ones, and nothing else changes |
| ModPlans.JudgeIsHolds | modupdate/newUpdate.go:493-514 | a dependency passes iff, in the order of versions, the version that will be there stands to the one asked for as its operator says, or does not for a mod that is ruled out, or none will be there and none is required |
| ModPlans.BuiltinsAgreeIff | modupdate/newUpdate.go:493-514 | search and check agree on a required built-in iff it is the base game or listed |
| ModUpdater.MergeDownload | modupdate/newUpdate.go:562-585 | the loop computes the merge of one download |
| ModUpdater.DependencySatisfied | modupdate/newUpdate.go:84-101 | the loop judges a dependency by the planned version, or else the installed one |
| ModUpdater.ResolveDeps | modupdate/newUpdate.go:128-304 | the loops and the recursion compute the search, which terminates on every portal |
| ModUpdater.ValidateDownloadPlan | modupdate/newUpdate.go:473-518 | passes iff every dependency of every mod that will be enabled holds |
| BuiltinTheorems.EnablesExactlyReach | modupdate/builtin.go:90-156 | on success exactly what is reached by followed dependencies is switched on; nothing is switched off or otherwise touched; graphs may be cyclic |
| BuiltinTheorems.EnableSucceedsIff | modupdate/builtin.go:90-156 | it succeeds iff everything a reached mod depends on is bundled |
| BuiltinTheorems.EnablingKeepsValidIff | modupdate/builtin.go:108-197 | in any list, repeated names included, the validator accepts the result iff the reached mods that are not listed twice find the versions they ask for and require no mod listed twice and off |
| BuiltinTheorems.DisablingKeepsValidIff | modupdate/builtin.go:108-197 | in any list, the validator accepts the result iff no other enabled mod requires the mod, or the list names it twice |
| BuiltinStore.Switcher.Enable | modupdate/builtin.go:108-154 | the recursive closure computes the search |
| BuiltinStore.SetBuiltinModEnabled | modupdate/builtin.go:90-156 | the new list or the error |
| BuiltinStore.ValidateBuiltinModDependencies | modupdate/builtin.go:158-197 | accepts iff every enabled mod's required dependencies are bundled, enabled and of a fitting version |

## Left out

- Foreign internals: Zstandard (RFC 8878), CRC-32C, SHA-256, JSON and base64 are functions of which only the inverse or injectivity facts are used; a digest stands for the text it was taken of.
- JSON form of the player database, nil records, and the two fields of a player that are never on disk.
- ASCII only: letter case and spaces follow ASCII where the program follows Unicode.
- Integer widths of counters: versions of marks, generations and request numbers do not wrap.
- Jobs: the listing of jobs and the JSON text of results.
- Lifecycle: announcements, operation tokens, status messages, the crash-loop counter, process identifiers, the last error, and the compatibility globals, none of which the phases depend on; the flags one scan of the queue reads are read at one moment.
- Lifecycle: the exit of the ChatWire process after its restart request; the manager is not modelled past it.
- LifecycleManager.Manager.WaitForStop: speaks of as many turns as its script has, since how long the environment takes is not known; so do ExecuteStop, Execute and RunRounds.
- Liveness: that a process killed at last does exit, and that a waiting request is served at some time.
- PlayerSyncRuns.ChangesReachDisk: is about changes made together with their mark; fields the program changes without a mark, such as SusScore, have no such guarantee.
- PlayerSyncRuns.LoadSettlesEach: is about files with lower-case names, as every writer keeps them; two names that differ in case are merged in map order.
- PlayerStore.Store.WritePlayers: what comes between its sections is given as lists of changes and the file others left; every other interleaving is in PlayerSyncModel.
- Player records: which values each moderation command stores; any value may be stored.
- Shared player file: edits by anything but the modelled processes.
- Configuration: per-field validation of web edits and the reset date derived from an edited interval; an edit carries whatever set of values is to change.
- Configuration: normalization after a reload, which may give any values.
- Configuration: a list inside the settings counts as one value, and the copy of the settings as one reading; lists altered in place between a copy and its commit are not modelled.
- ConfigStore.UnflattenValues: inner objects are replaced as values where the program follows references into them.
- ModUpdater.ValidateDownloadPlan: which of several failures is reported; the program takes the first in the order of names.
- Mod updates: downloading, archives, mod lists on disk, titles and progress reports.
- HTTP routing, cookies, Discord, RCON, file copying, signals and process spawning: only their outcomes appear.
